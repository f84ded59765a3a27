/** The event panel: tradable sessions, asset assignment, overlap policies and outcome windows. */
module EventPanel {
  import opened Distinct
  import opened Records
  import opened Ranking
  import opened Observations

  datatype Session = Session(name: string, opensAt: int, closesAt: int)

  datatype Overlap = Keep | First | Exclude

  datatype Reason = NoSession | NoAsset | Overlapping | OverlapFirst

  datatype Exclusion = Exclusion(intelligenceId: string, reason: Reason)

  /** An observation assigned to one asset and to the session it could first be traded in. */
  datatype Assignment = Assignment(item: Observation, asset: string, session: nat)

  datatype Outcome = Outcome(value: Option<real>, benchmark: Option<real>, sample: string)

  datatype PanelRow = PanelRow(item: Observation, asset: string, tradableAt: int, session: string, offset: int,
                               outcome: Option<real>, benchmark: Option<real>, abnormal: Option<real>, sample: string)

  // ----- sessions -----

  function Opening(s: Session): Rank {
    Rank(s.opensAt, 0, "")
  }

  /** The first session that has not closed by the tradable time, or the number of sessions. */
  function FirstOpen(sessions: seq<Session>, tradableAt: int): (i: nat)
    ensures i <= |sessions|
    ensures forall k :: 0 <= k < i ==> sessions[k].closesAt < tradableAt
    ensures i < |sessions| ==> tradableAt <= sessions[i].closesAt
  {
    if sessions == [] then 0
    else if tradableAt <= sessions[0].closesAt then 0
    else 1 + FirstOpen(sessions[1..], tradableAt)
  }

  /** The chosen session never moves back when the tradable time moves forward. */
  lemma SessionMonotone(sessions: seq<Session>, early: int, late: int)
    requires early <= late
    ensures FirstOpen(sessions, early) <= FirstOpen(sessions, late)
  {
    var i, j := FirstOpen(sessions, early), FirstOpen(sessions, late);
    assert forall k :: 0 <= k < i ==> sessions[k].closesAt < early;
  }

  // ----- assets -----

  function Mapped(entities: seq<string>, entityAssets: map<string, string>): seq<string> {
    if entities == [] then []
    else Mapped(entities[..|entities| - 1], entityAssets)
         + if entities[|entities| - 1] in entityAssets then [entityAssets[entities[|entities| - 1]]] else []
  }

  function Deduplicated(names: seq<string>): seq<string> {
    if names == [] then []
    else
      var init, last := names[..|names| - 1], names[|names| - 1];
      if last in init then Deduplicated(init) else Deduplicated(init) + [last]
  }

  function ByName(name: string): Rank {
    Rank(0, 0, name)
  }

  /** The mapped assets of an observation, or its own when no entity is mapped: in name order, each once. */
  function AssetsOf(item: Observation, entityAssets: map<string, string>): seq<string> {
    var named := Mapped(item.entities, entityAssets);
    Sort(ByName, Deduplicated(if named != [] then named else item.assets))
  }

  lemma {:induction false} DeduplicatedContents(names: seq<string>)
    ensures NoDuplicates(Deduplicated(names))
    ensures forall a :: a in Deduplicated(names) <==> a in names
  {
    if names != [] {
      DeduplicatedContents(names[..|names| - 1]);
      assert names == names[..|names| - 1] + [names[|names| - 1]];
    }
  }

  lemma {:induction false} MappedContents(entities: seq<string>, entityAssets: map<string, string>)
    ensures forall a :: a in Mapped(entities, entityAssets) <==>
              exists e :: e in entities && e in entityAssets && entityAssets[e] == a
  {
    if entities != [] {
      MappedContents(entities[..|entities| - 1], entityAssets);
      assert entities == entities[..|entities| - 1] + [entities[|entities| - 1]];
    }
  }

  /** The asset list is the sorted set the source builds: mapped assets win over listed ones. */
  lemma AssetsOfContents(item: Observation, entityAssets: map<string, string>)
    ensures NoDuplicates(AssetsOf(item, entityAssets)) && SortedBy(ByName, AssetsOf(item, entityAssets))
    ensures forall a :: a in AssetsOf(item, entityAssets) <==>
              (exists e :: e in item.entities && e in entityAssets && entityAssets[e] == a)
              || ((forall e :: e in item.entities ==> e !in entityAssets) && a in item.assets)
  {
    var named := Mapped(item.entities, entityAssets);
    var names := if named != [] then named else item.assets;
    MappedContents(item.entities, entityAssets);
    assert named != [] ==> named[0] in named;
    DeduplicatedContents(names);
    SortSorts(ByName, Deduplicated(names));
    SortElements(ByName, Deduplicated(names));
    PermutedNoDuplicates(Deduplicated(names), AssetsOf(item, entityAssets));
    assert named == [] ==> forall e :: e in item.entities && e in entityAssets ==> entityAssets[e] in named;
  }

  // ----- assignment -----

  /** The inputs that place an observation: the ordered sessions, the latency and the asset map. */
  datatype Market = Market(sessions: seq<Session>, latency: int, entityAssets: map<string, string>)

  /** What the first pass makes of one observation. */
  datatype Placement = Dropped(reason: Reason) | Assigned(session: nat)

  function Place(item: Observation, m: Market): Placement {
    var i := FirstOpen(m.sessions, item.availableAt + m.latency);
    if i == |m.sessions| then Dropped(NoSession)
    else if AssetsOf(item, m.entityAssets) == [] then Dropped(NoAsset)
    else Assigned(i)
  }

  function Assign(item: Observation, assets: seq<string>, session: nat): (r: seq<Assignment>)
    ensures |r| == |assets| && forall i :: 0 <= i < |r| ==> r[i] == Assignment(item, assets[i], session)
  {
    if assets == [] then []
    else Assign(item, assets[..|assets| - 1], session) + [Assignment(item, assets[|assets| - 1], session)]
  }

  function AssignmentsFor(item: Observation, m: Market): seq<Assignment> {
    match Place(item, m)
    case Dropped(_) => []
    case Assigned(session) => Assign(item, AssetsOf(item, m.entityAssets), session)
  }

  function ExclusionsFor(item: Observation, m: Market): seq<Exclusion> {
    match Place(item, m)
    case Dropped(reason) => [Exclusion(item.intelligenceId, reason)]
    case Assigned(_) => []
  }

  /** The assignments of the items in order: each assigned item once per asset, in name order. */
  function Assignments(items: seq<Observation>, m: Market): seq<Assignment> {
    if items == [] then []
    else Assignments(items[..|items| - 1], m) + AssignmentsFor(items[|items| - 1], m)
  }

  function Dropouts(items: seq<Observation>, m: Market): seq<Exclusion> {
    if items == [] then []
    else Dropouts(items[..|items| - 1], m) + ExclusionsFor(items[|items| - 1], m)
  }

  lemma FirstPassGrows(seen: seq<Observation>, item: Observation, m: Market)
    ensures Assignments(seen + [item], m) == Assignments(seen, m) + AssignmentsFor(item, m)
    ensures Dropouts(seen + [item], m) == Dropouts(seen, m) + ExclusionsFor(item, m)
  {
    assert (seen + [item])[..|seen|] == seen;
  }

  method AssignAll(items: seq<Observation>, m: Market) returns (assignments: seq<Assignment>, exclusions: seq<Exclusion>)
    ensures assignments == Assignments(items, m) && exclusions == Dropouts(items, m)
  {
    assignments, exclusions := [], [];
    ghost var seen: seq<Observation> := [];
    for i := 0 to |items|
      invariant seen == items[..i]
      invariant assignments == Assignments(seen, m) && exclusions == Dropouts(seen, m)
    {
      var added, dropped := AssignOne(items[i], m);
      FirstPassGrows(seen, items[i], m);
      TakeNext(items, i);
      assignments := assignments + added;
      exclusions := exclusions + dropped;
      seen := seen + [items[i]];
    }
    assert seen == items;
  }

  method AssignOne(item: Observation, m: Market) returns (added: seq<Assignment>, dropped: seq<Exclusion>)
    ensures added == AssignmentsFor(item, m) && dropped == ExclusionsFor(item, m)
  {
    added, dropped := [], [];
    var index := FirstOpen(m.sessions, item.availableAt + m.latency);
    if index == |m.sessions| {
      dropped := [Exclusion(item.intelligenceId, NoSession)];
      return;
    }
    var assets := AssetsOf(item, m.entityAssets);
    if assets == [] {
      dropped := [Exclusion(item.intelligenceId, NoAsset)];
      return;
    }
    added := Assign(item, assets, index);
  }

  /** Each observation is dropped for one reason or assigned, never both: an assignment is in the list exactly
      when its item is placed in that session and has that asset. */
  lemma {:induction false} AssignedExactly(items: seq<Observation>, m: Market, x: Assignment)
    ensures x in Assignments(items, m) <==>
            x.item in items && Place(x.item, m) == Assigned(x.session) && x.asset in AssetsOf(x.item, m.entityAssets)
  {
    if items != [] {
      var n := |items| - 1;
      assert items == items[..n] + [items[n]];
      AssignedExactly(items[..n], m, x);
      if Place(items[n], m).Assigned? {
        AssignMembers(items[n], AssetsOf(items[n], m.entityAssets), Place(items[n], m).session, x);
      }
    }
  }

  lemma AssignMembers(item: Observation, assets: seq<string>, session: nat, x: Assignment)
    ensures x in Assign(item, assets, session) <==> x.item == item && x.session == session && x.asset in assets
  {
    var r := Assign(item, assets, session);
    if x.item == item && x.session == session && x.asset in assets {
      var i :| 0 <= i < |assets| && assets[i] == x.asset;
      assert r[i] == x;
    }
  }

  function DroppedCount(items: seq<Observation>, m: Market): nat {
    if items == [] then 0 else DroppedCount(items[..|items| - 1], m) + if Place(items[|items| - 1], m).Dropped? then 1 else 0
  }

  function AssetTotal(items: seq<Observation>, m: Market): nat {
    if items == [] then 0
    else AssetTotal(items[..|items| - 1], m)
         + if Place(items[|items| - 1], m).Assigned? then |AssetsOf(items[|items| - 1], m.entityAssets)| else 0
  }

  /** Conservation of the first pass: one exclusion per dropped observation, one assignment per asset of the
      others, and every one of the others has at least one. */
  lemma {:induction false} FirstPassConserves(items: seq<Observation>, m: Market)
    ensures |Dropouts(items, m)| == DroppedCount(items, m)
    ensures |Assignments(items, m)| == AssetTotal(items, m) >= |items| - DroppedCount(items, m)
  {
    if items != [] {
      FirstPassConserves(items[..|items| - 1], m);
    }
  }

  // ----- overlap policies -----

  /** Assignments overlap when they share asset and session. */
  datatype SessionKey = SessionKey(asset: string, session: nat)

  function KeyOf(x: Assignment): SessionKey {
    SessionKey(x.asset, x.session)
  }

  function KeyCount(assignments: seq<Assignment>, key: SessionKey): nat {
    if assignments == [] then 0
    else KeyCount(assignments[..|assignments| - 1], key) + if KeyOf(assignments[|assignments| - 1]) == key then 1 else 0
  }

  /** Whether the policy emits the k-th assignment: all of them, the earliest of each key, or the keys with a
      single assignment. */
  ghost predicate Emits(policy: Overlap, assignments: seq<Assignment>, k: nat)
    requires k < |assignments|
  {
    match policy
    case Keep => true
    case First => forall j :: 0 <= j < k ==> KeyOf(assignments[j]) != KeyOf(assignments[k])
    case Exclude => forall j :: 0 <= j < |assignments| && j != k ==> KeyOf(assignments[j]) != KeyOf(assignments[k])
  }

  ghost function EmittedIndices(policy: Overlap, assignments: seq<Assignment>, n: nat): seq<nat>
    requires n <= |assignments|
  {
    if n == 0 then [] else EmittedIndices(policy, assignments, n - 1) + if Emits(policy, assignments, n - 1) then [n - 1] else []
  }

  ghost function OverlapExclusions(policy: Overlap, assignments: seq<Assignment>, n: nat): seq<Exclusion>
    requires n <= |assignments|
  {
    if n == 0 then []
    else OverlapExclusions(policy, assignments, n - 1)
         + if Emits(policy, assignments, n - 1) then []
           else [Exclusion(assignments[n - 1].item.intelligenceId, if policy == Exclude then Overlapping else OverlapFirst)]
  }

  lemma {:induction false} CountConcat(a: seq<Assignment>, b: seq<Assignment>, key: SessionKey)
    ensures KeyCount(a + b, key) == KeyCount(a, key) + KeyCount(b, key)
  {
    if b == [] {
      assert a + b == a;
    } else {
      CountConcat(a, b[..|b| - 1], key);
      assert (a + b)[..|a + b| - 1] == a + b[..|b| - 1];
    }
  }

  lemma {:induction false} CountZero(s: seq<Assignment>, key: SessionKey)
    ensures KeyCount(s, key) == 0 <==> forall j :: 0 <= j < |s| ==> KeyOf(s[j]) != key
  {
    if s != [] {
      CountZero(s[..|s| - 1], key);
    }
  }

  /** A key is counted once exactly when no other assignment has it. */
  lemma SingleKey(assignments: seq<Assignment>, k: nat)
    requires k < |assignments|
    ensures KeyCount(assignments, KeyOf(assignments[k])) <= 1 <==> Emits(Exclude, assignments, k)
  {
    var key := KeyOf(assignments[k]);
    var a, b := assignments[..k], assignments[k + 1..];
    assert assignments == a + [assignments[k]] + b;
    CountConcat(a + [assignments[k]], b, key);
    CountConcat(a, [assignments[k]], key);
    assert KeyCount([assignments[k]], key) == 1 by {
      assert [assignments[k]][..0] == [];
    }
    CountZero(a, key);
    CountZero(b, key);
    assert forall j :: 0 <= j < |b| ==> b[j] == assignments[k + 1 + j];
  }

  function Tallied(counts: map<SessionKey, nat>, key: SessionKey): nat {
    if key in counts then counts[key] else 0
  }

  /** The counting pass of the panel: how many assignments each (asset, session) has. */
  method CountKeys(assignments: seq<Assignment>) returns (counts: map<SessionKey, nat>)
    ensures forall key :: Tallied(counts, key) == KeyCount(assignments, key)
  {
    counts := map[];
    for i := 0 to |assignments|
      invariant forall key :: Tallied(counts, key) == KeyCount(assignments[..i], key)
    {
      var key := KeyOf(assignments[i]);
      assert assignments[..i + 1][..i] == assignments[..i];
      counts := counts[key := Tallied(counts, key) + 1];
    }
    assert assignments[..|assignments|] == assignments;
  }

  /** The keys of the first n assignments. */
  function KeysUpTo(assignments: seq<Assignment>, n: nat): set<SessionKey>
    requires n <= |assignments|
  {
    if n == 0 then {} else KeysUpTo(assignments, n - 1) + {KeyOf(assignments[n - 1])}
  }

  lemma {:induction false} KeysUpToMembers(assignments: seq<Assignment>, n: nat, key: SessionKey)
    requires n <= |assignments|
    ensures key in KeysUpTo(assignments, n) <==> exists j :: 0 <= j < n && KeyOf(assignments[j]) == key
  {
    if n > 0 {
      KeysUpToMembers(assignments, n - 1, key);
    }
  }

  /** The source's two guards decide exactly what the policy says. */
  lemma PolicyGuard(policy: Overlap, assignments: seq<Assignment>, k: nat)
    requires k < |assignments|
    ensures Emits(policy, assignments, k) <==>
            !(KeyCount(assignments, KeyOf(assignments[k])) > 1 && policy == Exclude)
            && !(KeyOf(assignments[k]) in KeysUpTo(assignments, k) && policy == First)
  {
    SingleKey(assignments, k);
    KeysUpToMembers(assignments, k, KeyOf(assignments[k]));
  }

  /** The emitting pass with its `seen` set: the policy's indices in order, and one exclusion for every other. */
  method EmitAll(policy: Overlap, assignments: seq<Assignment>) returns (emitted: seq<nat>, exclusions: seq<Exclusion>)
    ensures emitted == EmittedIndices(policy, assignments, |assignments|)
    ensures exclusions == OverlapExclusions(policy, assignments, |assignments|)
  {
    var counts := CountKeys(assignments);
    var seen: set<SessionKey> := {};
    emitted, exclusions := [], [];
    for k := 0 to |assignments|
      invariant emitted == EmittedIndices(policy, assignments, k)
      invariant exclusions == OverlapExclusions(policy, assignments, k)
      invariant policy == First ==> seen == KeysUpTo(assignments, k)
    {
      var x := assignments[k];
      PolicyGuard(policy, assignments, k);
      if Tallied(counts, KeyOf(x)) > 1 && policy == Exclude {
        exclusions := exclusions + [Exclusion(x.item.intelligenceId, Overlapping)];
      } else if KeyOf(x) in seen && policy == First {
        exclusions := exclusions + [Exclusion(x.item.intelligenceId, OverlapFirst)];
      } else {
        seen := seen + {KeyOf(x)};
        emitted := emitted + [k];
      }
    }
  }

  lemma {:induction false} EmittedMembers(policy: Overlap, assignments: seq<Assignment>, n: nat, k: nat)
    requires n <= |assignments|
    ensures k in EmittedIndices(policy, assignments, n) <==> k < n && Emits(policy, assignments, k)
  {
    if n > 0 {
      EmittedMembers(policy, assignments, n - 1, k);
    }
  }

  /** exclude emits within first, which emits within keep. */
  lemma PoliciesNest(assignments: seq<Assignment>, k: nat)
    ensures k in EmittedIndices(Exclude, assignments, |assignments|) ==> k in EmittedIndices(First, assignments, |assignments|)
    ensures k in EmittedIndices(First, assignments, |assignments|) ==> k in EmittedIndices(Keep, assignments, |assignments|)
  {
    EmittedMembers(Exclude, assignments, |assignments|, k);
    EmittedMembers(First, assignments, |assignments|, k);
    EmittedMembers(Keep, assignments, |assignments|, k);
  }

  /** Conservation: every assignment is either emitted or excluded, exactly once. */
  lemma {:induction false} EmittedOrExcluded(policy: Overlap, assignments: seq<Assignment>, n: nat)
    requires n <= |assignments|
    ensures |EmittedIndices(policy, assignments, n)| + |OverlapExclusions(policy, assignments, n)| == n
  {
    if n > 0 {
      EmittedOrExcluded(policy, assignments, n - 1);
    }
  }

  /** `first` keeps one assignment of every key, the earliest; so every key is represented exactly once. */
  lemma {:induction false} FirstRepresentsEveryKey(assignments: seq<Assignment>, k: nat) returns (earliest: nat)
    requires k < |assignments|
    ensures earliest <= k && KeyOf(assignments[earliest]) == KeyOf(assignments[k])
    ensures earliest in EmittedIndices(First, assignments, |assignments|)
    ensures forall j :: j in EmittedIndices(First, assignments, |assignments|) ==>
              j < |assignments| && (KeyOf(assignments[j]) == KeyOf(assignments[k]) ==> j == earliest)
    decreases k
  {
    if j :| 0 <= j < k && KeyOf(assignments[j]) == KeyOf(assignments[k]) {
      earliest := FirstRepresentsEveryKey(assignments, j);
    } else {
      earliest := k;
    }
    EmittedMembers(First, assignments, |assignments|, earliest);
    forall j | j in EmittedIndices(First, assignments, |assignments|)
      ensures j < |assignments| && (KeyOf(assignments[j]) == KeyOf(assignments[k]) ==> j == earliest)
    {
      EmittedMembers(First, assignments, |assignments|, j);
    }
  }

  // ----- outcome windows -----

  function RowAt(x: Assignment, sessions: seq<Session>, latency: int, outcomes: map<SessionLabel, Outcome>, offset: int): PanelRow
    requires 0 <= x.session + offset < |sessions|
  {
    var name := sessions[x.session + offset].name;
    var o := if (x.asset, name) in outcomes then outcomes[(x.asset, name)] else Outcome(None, None, "exploratory");
    PanelRow(x.item, x.asset, x.item.availableAt + latency, name, offset, o.value, o.benchmark,
             if o.value.Some? && o.benchmark.Some? then Some(o.value.value - o.benchmark.value) else None, o.sample)
  }

  type SessionLabel = (string, string)

  predicate OnSession(x: Assignment, sessions: seq<Session>, offset: int) {
    0 <= x.session + offset < |sessions|
  }

  /** The rows around an assignment: one per offset in [lo, hi) that falls on a session. */
  function Window(x: Assignment, sessions: seq<Session>, latency: int, outcomes: map<SessionLabel, Outcome>, lo: int, hi: int)
    : seq<PanelRow>
    decreases hi - lo
  {
    if hi <= lo then []
    else Window(x, sessions, latency, outcomes, lo, hi - 1)
         + if OnSession(x, sessions, hi - 1) then [RowAt(x, sessions, latency, outcomes, hi - 1)] else []
  }

  lemma {:induction false} WindowMembers(x: Assignment, sessions: seq<Session>, latency: int,
                                         outcomes: map<SessionLabel, Outcome>, lo: int, hi: int, row: PanelRow)
    ensures row in Window(x, sessions, latency, outcomes, lo, hi) <==>
            lo <= row.offset < hi && OnSession(x, sessions, row.offset)
            && row == RowAt(x, sessions, latency, outcomes, row.offset)
    decreases hi - lo
  {
    if lo < hi {
      WindowMembers(x, sessions, latency, outcomes, lo, hi - 1, row);
    }
  }

  function Panel(assignments: seq<Assignment>, emitted: seq<nat>, sessions: seq<Session>, latency: int,
                 outcomes: map<SessionLabel, Outcome>, pre: nat, post: nat): seq<PanelRow>
    requires forall k :: k in emitted ==> k < |assignments|
  {
    if emitted == [] then []
    else
      var n := |emitted| - 1;
      assert emitted[n] in emitted && forall k :: k in emitted[..n] ==> k in emitted;
      Panel(assignments, emitted[..n], sessions, latency, outcomes, pre, post)
      + Window(assignments[emitted[n]], sessions, latency, outcomes, -(pre as int), post + 1)
  }

  method WindowRows(x: Assignment, sessions: seq<Session>, latency: int, outcomes: map<SessionLabel, Outcome>, pre: nat, post: nat)
    returns (rows: seq<PanelRow>)
    ensures rows == Window(x, sessions, latency, outcomes, -(pre as int), post + 1)
  {
    rows := [];
    var offset: int := -(pre as int);
    while offset <= post
      invariant -(pre as int) <= offset <= post + 1
      invariant rows == Window(x, sessions, latency, outcomes, -(pre as int), offset)
      decreases post - offset
    {
      if OnSession(x, sessions, offset) {
        rows := rows + [RowAt(x, sessions, latency, outcomes, offset)];
      }
      offset := offset + 1;
    }
  }

  // ----- the summary -----

  datatype Summary = Summary(
    rowCount: nat,
    eventCount: nat,
    exclusionCount: nat,
    missingOutcomeCount: nat,
    mean: Option<real>,
    interval: Option<(real, real)>)

  datatype PanelResult = PanelResult(rows: seq<PanelRow>, exclusions: seq<Exclusion>, summary: Summary)

  function Abnormals(rows: seq<PanelRow>): seq<real> {
    if rows == [] then []
    else
      var n := |rows| - 1;
      Abnormals(rows[..n]) + if rows[n].abnormal.Some? then [rows[n].abnormal.value] else []
  }

  function Missing(rows: seq<PanelRow>): nat {
    if rows == [] then 0 else Missing(rows[..|rows| - 1]) + if rows[|rows| - 1].outcome.None? then 1 else 0
  }

  function Total(values: seq<real>): real {
    if values == [] then 0.0 else Total(values[..|values| - 1]) + values[|values| - 1]
  }

  function Mean(values: seq<real>): real
    requires values != []
  {
    Total(values) / (|values| as real)
  }

  function SquaredDeviations(values: seq<real>, center: real): real {
    if values == [] then 0.0
    else
      var d := values[|values| - 1] - center;
      SquaredDeviations(values[..|values| - 1], center) + d * d
  }

  /** The standard error of the mean; `root` is the square root of the platform. */
  function StandardError(values: seq<real>, root: real -> real): real
    requires |values| > 1 && root(|values| as real) != 0.0
  {
    root(SquaredDeviations(values, Mean(values)) / ((|values| - 1) as real)) / root(|values| as real)
  }

  ghost predicate IsRoot(root: real -> real) {
    forall x :: x >= 0.0 ==> root(x) >= 0.0 && root(x) * root(x) == x
  }

  function Interval(values: seq<real>, root: real -> real): Option<(real, real)>
    requires IsRoot(root)
  {
    if |values| <= 1 then None
    else
      assert root(|values| as real) != 0.0;
      var spread := 1.96 * StandardError(values, root);
      Some((Mean(values) - spread, Mean(values) + spread))
  }

  function Ids(rows: seq<PanelRow>): set<string> {
    set row | row in rows :: row.item.intelligenceId
  }

  method Summarize(rows: seq<PanelRow>, exclusions: seq<Exclusion>, root: real -> real) returns (s: Summary)
    requires IsRoot(root)
    ensures s.rowCount == |rows| && s.exclusionCount == |exclusions| && s.eventCount == |Ids(rows)|
    ensures s.missingOutcomeCount == Missing(rows)
    ensures var values := Abnormals(rows);
      s.mean == (if values == [] then None else Some(Mean(values))) && s.interval == Interval(values, root)
  {
    var values: seq<real>, missing := [], 0;
    for i := 0 to |rows|
      invariant values == Abnormals(rows[..i]) && missing == Missing(rows[..i])
    {
      TakeNext(rows, i);
      assert rows[..i + 1][..i] == rows[..i];
      if rows[i].abnormal.Some? {
        values := values + [rows[i].abnormal.value];
      }
      if rows[i].outcome.None? {
        missing := missing + 1;
      }
    }
    assert rows[..|rows|] == rows;
    s := Summary(|rows|, |Ids(rows)|, |exclusions|, missing, if values == [] then None else Some(Mean(values)),
                 Interval(values, root));
  }

  lemma {:induction false} TotalWithin(values: seq<real>, lo: real, hi: real)
    requires forall v :: v in values ==> lo <= v <= hi
    ensures lo * (|values| as real) <= Total(values) <= hi * (|values| as real)
  {
    if values != [] {
      var n := |values| - 1;
      assert values[n] in values && forall v :: v in values[..n] ==> v in values;
      TotalWithin(values[..n], lo, hi);
      assert |values| as real == (n as real) + 1.0;
    }
  }

  lemma {:induction false} DeviationsNonnegative(values: seq<real>, center: real)
    ensures SquaredDeviations(values, center) >= 0.0
  {
    if values != [] {
      DeviationsNonnegative(values[..|values| - 1], center);
      SquareNonnegative(values[|values| - 1] - center);
    }
  }

  lemma SquareNonnegative(d: real)
    ensures d * d >= 0.0
  {
    if d < 0.0 {
      assert -d * -d > 0.0;
    }
  }

  /** The mean lies between any bounds on the abnormal outcomes. */
  lemma MeanWithin(values: seq<real>, lo: real, hi: real)
    requires values != [] && forall v :: v in values ==> lo <= v <= hi
    ensures lo <= Mean(values) <= hi
  {
    TotalWithin(values, lo, hi);
    Quotient(Total(values), |values| as real, lo, hi);
  }

  lemma Quotient(total: real, n: real, lo: real, hi: real)
    requires n > 0.0 && lo * n <= total <= hi * n
    ensures lo <= total / n <= hi
  {
  }

  /** The square of the standard error times n (n - 1) is the sum of squared deviations from the mean. */
  lemma ErrorOfMean(values: seq<real>, root: real -> real)
    requires |values| > 1 && IsRoot(root)
    ensures root(|values| as real) != 0.0
    ensures var e := StandardError(values, root);
      e >= 0.0 && e * e * (|values| as real) * ((|values| - 1) as real) == SquaredDeviations(values, Mean(values))
  {
    DeviationsNonnegative(values, Mean(values));
    var n, m, sum := |values| as real, (|values| - 1) as real, SquaredDeviations(values, Mean(values));
    VarianceOf(sum, m);
    NonzeroRoot(root, n);
    ErrorSquared(root(sum / m), root(n), n, sum / m);
  }

  lemma NonzeroRoot(root: real -> real, n: real)
    requires IsRoot(root) && n > 0.0
    ensures root(n) > 0.0 && root(n) * root(n) == n
  {
  }

  lemma VarianceOf(sum: real, n: real)
    requires sum >= 0.0 && n > 0.0
    ensures sum / n >= 0.0 && sum / n * n == sum
  {
  }

  lemma ErrorSquared(r: real, q: real, n: real, variance: real)
    requires r >= 0.0 && q > 0.0 && q * q == n && r * r == variance
    ensures r / q >= 0.0 && r / q * (r / q) * n == variance
  {
    var e := r / q;
    VarianceOf(r, q);
    assert e * q == r;
    assert e * e * (q * q) == e * q * (e * q);
  }

  /** Every row comes from the window of an emitted assignment, and all of those are there. */
  lemma {:induction false} PanelMembers(assignments: seq<Assignment>, emitted: seq<nat>, sessions: seq<Session>, latency: int,
                                        outcomes: map<SessionLabel, Outcome>, pre: nat, post: nat, row: PanelRow)
    requires forall k :: k in emitted ==> k < |assignments|
    ensures row in Panel(assignments, emitted, sessions, latency, outcomes, pre, post) <==>
      exists k :: k in emitted && row in Window(assignments[k], sessions, latency, outcomes, -(pre as int), post + 1)
  {
    if emitted != [] {
      var n := |emitted| - 1;
      assert emitted == emitted[..n] + [emitted[n]];
      assert emitted[n] in emitted && forall k :: k in emitted[..n] ==> k in emitted;
      PanelMembers(assignments, emitted[..n], sessions, latency, outcomes, pre, post, row);
    }
  }

  lemma PlacedOnSession(items: seq<Observation>, m: Market, x: Assignment)
    requires x in Assignments(items, m)
    ensures x.session < |m.sessions|
  {
    AssignedExactly(items, m, x);
  }

  lemma CenterRow(x: Assignment, sessions: seq<Session>, latency: int, outcomes: map<SessionLabel, Outcome>, pre: nat, post: nat)
    returns (row: PanelRow)
    requires x.session < |sessions|
    ensures row in Window(x, sessions, latency, outcomes, -(pre as int), post + 1) && row.item == x.item
  {
    row := RowAt(x, sessions, latency, outcomes, 0);
    WindowMembers(x, sessions, latency, outcomes, -(pre as int), post + 1, row);
  }

  lemma EventRow(items: seq<Observation>, m: Market, emitted: seq<nat>, outcomes: map<SessionLabel, Outcome>, pre: nat, post: nat, k: nat)
    requires (forall j :: j in emitted ==> j < |Assignments(items, m)|) && k in emitted
    ensures Assignments(items, m)[k].item.intelligenceId
      in Ids(Panel(Assignments(items, m), emitted, m.sessions, m.latency, outcomes, pre, post))
  {
    var x := Assignments(items, m)[k];
    PlacedOnSession(items, m, x);
    var row := CenterRow(x, m.sessions, m.latency, outcomes, pre, post);
    PanelMembers(Assignments(items, m), emitted, m.sessions, m.latency, outcomes, pre, post, row);
  }

  lemma RowsEvent(assignments: seq<Assignment>, emitted: seq<nat>, sessions: seq<Session>, latency: int,
                  outcomes: map<SessionLabel, Outcome>, pre: nat, post: nat, row: PanelRow) returns (k: nat)
    requires forall j :: j in emitted ==> j < |assignments|
    requires row in Panel(assignments, emitted, sessions, latency, outcomes, pre, post)
    ensures k in emitted && assignments[k].item == row.item
  {
    PanelMembers(assignments, emitted, sessions, latency, outcomes, pre, post, row);
    k :| k in emitted && row in Window(assignments[k], sessions, latency, outcomes, -(pre as int), post + 1);
    WindowMembers(assignments[k], sessions, latency, outcomes, -(pre as int), post + 1, row);
  }

  function EmittedIds(assignments: seq<Assignment>, emitted: seq<nat>): set<string>
    requires forall k :: k in emitted ==> k < |assignments|
  {
    set k | k in emitted :: assignments[k].item.intelligenceId
  }

  /** The event count is the number of distinct items that are emitted: each contributes at least the row of the session it
      was assigned to, and no other item has a row. */
  lemma EventsCounted(items: seq<Observation>, m: Market, emitted: seq<nat>, outcomes: map<SessionLabel, Outcome>, pre: nat, post: nat)
    requires forall k :: k in emitted ==> k < |Assignments(items, m)|
    ensures Ids(Panel(Assignments(items, m), emitted, m.sessions, m.latency, outcomes, pre, post))
      == EmittedIds(Assignments(items, m), emitted)
  {
    var assignments := Assignments(items, m);
    var rows := Panel(assignments, emitted, m.sessions, m.latency, outcomes, pre, post);
    forall id | id in EmittedIds(assignments, emitted)
      ensures id in Ids(rows)
    {
      var k :| k in emitted && assignments[k].item.intelligenceId == id;
      EventRow(items, m, emitted, outcomes, pre, post, k);
    }
    forall id | id in Ids(rows)
      ensures id in EmittedIds(assignments, emitted)
    {
      var row :| row in rows && row.item.intelligenceId == id;
      var k := RowsEvent(assignments, emitted, m.sessions, m.latency, outcomes, pre, post, row);
    }
  }

  /** The emission the policy asks for, in order. */
  ghost function Emission(policy: Overlap, assignments: seq<Assignment>): (emitted: seq<nat>)
    ensures forall k :: k in emitted ==> k < |assignments|
  {
    forall k | k in EmittedIndices(policy, assignments, |assignments|) ensures k < |assignments| {
      EmittedMembers(policy, assignments, |assignments|, k);
    }
    EmittedIndices(policy, assignments, |assignments|)
  }

  method JoinWindows(assignments: seq<Assignment>, emitted: seq<nat>, sessions: seq<Session>, latency: int,
                     outcomes: map<SessionLabel, Outcome>, pre: nat, post: nat) returns (rows: seq<PanelRow>)
    requires forall k :: k in emitted ==> k < |assignments|
    ensures rows == Panel(assignments, emitted, sessions, latency, outcomes, pre, post)
  {
    rows := [];
    ghost var done: seq<nat> := [];
    for n := 0 to |emitted|
      invariant done == emitted[..n] && (forall k :: k in done ==> k < |assignments|)
      invariant rows == Panel(assignments, done, sessions, latency, outcomes, pre, post)
    {
      TakeNext(emitted, n);
      assert emitted[n] in emitted && (done + [emitted[n]])[..|done|] == done;
      var window := WindowRows(assignments[emitted[n]], sessions, latency, outcomes, pre, post);
      rows := rows + window;
      done := done + [emitted[n]];
    }
    assert done == emitted;
  }

  /** The whole panel: negative parameters are refused; otherwise sort, assign, apply the policy, and join the
      outcome windows of what it emits. */
  method BuildEventPanel(observations: seq<Observation>, sessions: seq<Session>, outcomes: map<SessionLabel, Outcome>,
                         entityAssets: map<string, string>, latency: int, pre: int, post: int, policy: Overlap,
                         root: real -> real)
    returns (result: Option<PanelResult>)
    requires IsRoot(root)
    ensures result.None? <==> pre < 0 || post < 0 || latency < 0
    ensures result.Some? ==>
      var m := Market(Sort(Opening, sessions), latency, entityAssets);
      var items := Sort(Arrival, observations);
      var assignments := Assignments(items, m);
      result.value.exclusions == Dropouts(items, m) + OverlapExclusions(policy, assignments, |assignments|)
      && result.value.rows == Panel(assignments, Emission(policy, assignments), m.sessions, latency, outcomes, pre, post)
      && var s := result.value.summary;
         && s.rowCount == |result.value.rows| && s.exclusionCount == |result.value.exclusions|
         && s.eventCount == |EmittedIds(assignments, Emission(policy, assignments))|
         && s.missingOutcomeCount == Missing(result.value.rows)
         && s.mean == (if Abnormals(result.value.rows) == [] then None else Some(Mean(Abnormals(result.value.rows))))
         && s.interval == Interval(Abnormals(result.value.rows), root)
  {
    if pre < 0 || post < 0 || latency < 0 {
      return None;
    }
    var m := Market(Sort(Opening, sessions), latency, entityAssets);
    var assignments, exclusions := AssignAll(Sort(Arrival, observations), m);
    var emitted, overlaps := EmitAll(policy, assignments);
    assert emitted == Emission(policy, assignments);
    var rows := JoinWindows(assignments, emitted, m.sessions, latency, outcomes, pre, post);
    var summary := Summarize(rows, exclusions + overlaps, root);
    EventsCounted(Sort(Arrival, observations), m, emitted, outcomes, pre, post);
    result := Some(PanelResult(rows, exclusions + overlaps, summary));
  }

  /** No row of the panel looks back past its event: the session of offset 0 and every later one close at or
      after the tradable time, provided closing times follow opening times. */
  lemma WindowNotBeforeTradable(sessions: seq<Session>, tradableAt: int, offset: int)
    requires forall i, j :: 0 <= i < j < |sessions| ==> sessions[i].closesAt <= sessions[j].closesAt
    requires FirstOpen(sessions, tradableAt) < |sessions| && 0 <= FirstOpen(sessions, tradableAt) + offset < |sessions|
    ensures tradableAt <= sessions[FirstOpen(sessions, tradableAt) + offset].closesAt <==>
            0 <= offset
  {
    var i := FirstOpen(sessions, tradableAt);
    if offset > 0 {
      assert sessions[i].closesAt <= sessions[i + offset].closesAt;
    }
  }
}
