/** The service's request handlers: the pending list of instance ids kept in the stored
    configuration, the forced relinking, the outstanding issues, and the count of recent
    rips. The configuration store is the server's `config` field; loading reads it and
    saving replaces it, and either can fail as the environment says. */
module Api {
  import opened Wrappers
  import opened RecordUtils
  import opened Records
  import opened Reconcile
  import opened Service

  // ---------------------------------------------------------------------------
  // The pending list
  // ---------------------------------------------------------------------------

  /** The ids of `ids` other than `id`, in their order. */
  function Without(ids: seq<int>, id: int): (r: seq<int>)
    ensures |r| <= |ids|
  {
    if ids == [] then []
    else
      var last := ids[|ids| - 1];
      Without(ids[..|ids| - 1], id) + (if last == id then [] else [last])
  }

  /** Removing an id drops every occurrence of it and keeps every other id as many times
      as it was there. */
  lemma {:induction false} WithoutCounts(ids: seq<int>, id: int)
    ensures multiset(Without(ids, id))[id] == 0
    ensures forall x :: x != id ==> multiset(Without(ids, id))[x] == multiset(ids)[x]
    decreases |ids|
  {
    if ids != [] {
      var init := ids[..|ids| - 1];
      WithoutCounts(init, id);
      assert ids == init + [ids[|ids| - 1]];
    }
  }

  /** Removing an id commutes with concatenation, so the ids that stay keep their order. */
  lemma {:induction false} WithoutConcat(a: seq<int>, b: seq<int>, id: int)
    ensures Without(a + b, id) == Without(a, id) + Without(b, id)
    decreases |b|
  {
    if b == [] {
      assert a + b == a;
    } else {
      var b' := b[..|b| - 1];
      assert (a + b)[..|a + b| - 1] == a + b';
      WithoutConcat(a, b', id);
    }
  }

  /** The pending list after an update: a successful link removes the id, a failed one
      adds it at the end unless it is already there. */
  function PendingAfter(toGo: seq<int>, id: int, linked: Outcome): seq<int>
  {
    if linked.Pass? then Without(toGo, id)
    else if id in toGo then toGo
    else toGo + [id]
  }

  /** After a success the id is gone; after a failure it is there as often as before, or
      once; every other id keeps its count. */
  lemma PendingAfterCounts(toGo: seq<int>, id: int, linked: Outcome)
    ensures linked.Pass? ==> multiset(PendingAfter(toGo, id, linked))[id] == 0
    ensures linked.Fail? ==>
      multiset(PendingAfter(toGo, id, linked))[id] == (if id in toGo then multiset(toGo)[id] else 1)
    ensures forall x :: x != id ==> multiset(PendingAfter(toGo, id, linked))[x] == multiset(toGo)[x]
  {
    WithoutCounts(toGo, id);
  }

  /** What a client update returns and leaves behind. */
  datatype Update = Update(state: State, config: Config, outcome: Outcome)

  /** ClientUpdate. A load error is returned. Otherwise the record is linked without
      forcing; a panic propagates. A success removes the id from the pending list and
      saves it; a failure adds the id when it is absent and saves, and otherwise saves
      nothing. A save error is returned in place of the link's result; the list changes
      only when the save succeeds. */
  function ClientUpdateSpec(st: State, config: Config, id: int, dirs: Dirs, env: Env): (r: Update)
    requires ValidRips(st.rips)
    ensures ValidRips(r.state.rips) && st.effects <= r.state.effects
  {
    if env.load.Fail? then Update(st, config, env.load)
    else
      var m := MakeLinksSpec(st, id, false, dirs, env);
      if IsPanic(m.outcome) || (m.outcome.Fail? && id in config.toGo) then Update(m.state, config, m.outcome)
      else if env.save.Fail? then Update(m.state, config, env.save)
      else Update(m.state, config.(toGo := PendingAfter(config.toGo, id, m.outcome)), m.outcome)
  }

  /** A client update leaves the rest of the configuration alone, saves the pending list
      of PendingAfter or nothing, and saves it whenever loading, linking without a panic
      and saving all succeed. It succeeds exactly when loading, linking and, after a
      successful link, saving succeed. */
  lemma ClientUpdateProperties(st: State, config: Config, id: int, dirs: Dirs, env: Env)
    requires ValidRips(st.rips)
    ensures var r := ClientUpdateSpec(st, config, id, dirs, env);
      var m := MakeLinksSpec(st, id, false, dirs, env);
      r.config.issueMapping == config.issueMapping && r.config.lastRipTime == config.lastRipTime &&
      r.config.goalFolder == config.goalFolder &&
      (r.config.toGo == config.toGo || r.config.toGo == PendingAfter(config.toGo, id, m.outcome)) &&
      (env.load.Pass? && !IsPanic(m.outcome) && env.save.Pass? ==>
        r.config.toGo == PendingAfter(config.toGo, id, m.outcome)) &&
      (r.outcome.Pass? <==> env.load.Pass? && m.outcome.Pass? && env.save.Pass?)
  {
    var m := MakeLinksSpec(st, id, false, dirs, env);
    if env.load.Pass? && !IsPanic(m.outcome) && m.outcome.Fail? && id in config.toGo {
      assert PendingAfter(config.toGo, id, m.outcome) == config.toGo;
    }
  }

  /** ClientUpdate: relink the record and keep the pending list of instance ids. */
  method ClientUpdate(s: Server, id: int, env: Env) returns (o: Outcome)
    requires s.Valid()
    modifies s
    ensures s.Valid()
    ensures Update(s.Snapshot(), s.config, o) == ClientUpdateSpec(old(s.Snapshot()), old(s.config), id, s.dirs, env)
  {
    if env.load.Fail? {
      return env.load;
    }
    var config := s.config;
    o := s.MakeLinks(id, false, env);
    if IsPanic(o) {
      return;
    }
    if o.Pass? {
      var ntogo: seq<int> := [];
      var i := 0;
      while i < |config.toGo|
        invariant 0 <= i <= |config.toGo|
        invariant ntogo == Without(config.toGo[..i], id)
      {
        assert config.toGo[..i + 1][..i] == config.toGo[..i];
        if config.toGo[i] != id {
          ntogo := ntogo + [config.toGo[i]];
        }
        i := i + 1;
      }
      assert config.toGo[..i] == config.toGo;
      config := config.(toGo := ntogo);
      if env.save.Fail? {
        return env.save;
      }
      s.config := config;
    } else {
      var found := false;
      var i := 0;
      while i < |config.toGo|
        invariant 0 <= i <= |config.toGo|
        invariant found <==> id in config.toGo[..i]
      {
        assert config.toGo[..i + 1] == config.toGo[..i] + [config.toGo[i]];
        if config.toGo[i] == id {
          found := true;
        }
        i := i + 1;
      }
      assert config.toGo[..i] == config.toGo;
      if !found {
        config := config.(toGo := config.toGo + [id]);
        if env.save.Fail? {
          return env.save;
        }
        s.config := config;
      }
    }
  }

  // ---------------------------------------------------------------------------
  // GetMissing, GetRipped and Force
  // ---------------------------------------------------------------------------

  /** The smallest id of a non-empty list. */
  function Min(ids: seq<int>): int
    requires ids != []
  {
    if |ids| == 1 then ids[0]
    else
      var m := Min(ids[..|ids| - 1]);
      if ids[|ids| - 1] < m then ids[|ids| - 1] else m
  }

  /** Min is an element of the list and no element is smaller. */
  lemma {:induction false} MinIsLeast(ids: seq<int>)
    requires ids != []
    ensures Min(ids) in ids
    ensures forall x :: x in ids ==> Min(ids) <= x
    decreases |ids|
  {
    if |ids| > 1 {
      var init := ids[..|ids| - 1];
      MinIsLeast(init);
      assert ids == init + [ids[|ids| - 1]];
    }
  }

  /** GetMissing: the record of the smallest pending id, `None` when nothing is
      pending; a load or lookup error is returned. */
  method GetMissing(s: Server, env: Env) returns (r: Result<Option<Record>>)
    ensures env.load.Fail? ==> r == Err(env.load.error)
    ensures env.load.Pass? && s.config.toGo == [] ==> r == Ok(None)
    ensures env.load.Pass? && s.config.toGo != [] ==>
      exists least :: least in s.config.toGo && (forall x :: x in s.config.toGo ==> least <= x) &&
        r == match env.getRecord(least)
             case Err(e) => Err(e)
             case Ok(record) => Ok(Some(record))
  {
    if env.load.Fail? {
      return Err(env.load.error);
    }
    var toGo := s.config.toGo;
    if toGo == [] {
      return Ok(None);
    }
    var least := toGo[0];
    var i := 1;
    while i < |toGo|
      invariant 1 <= i <= |toGo|
      invariant least == Min(toGo[..i])
    {
      assert toGo[..i + 1][..i] == toGo[..i];
      if toGo[i] < least {
        least := toGo[i];
      }
      i := i + 1;
    }
    assert toGo[..i] == toGo;
    MinIsLeast(toGo);
    var got := env.getRecord(least);
    if got.Err? {
      return Err(got.error);
    }
    return Ok(Some(got.value));
  }

  /** GetRipped: the rips of the last survey. */
  method GetRipped(s: Server) returns (r: seq<Rip>)
    ensures r == s.rips
  {
    return s.rips;
  }

  /** The kinds of forced action a request can ask for. */
  datatype ForceKind = RecreateLinks | OtherForce(code: int)

  /** Force: relink a record regardless of its CD path; any other kind is refused. */
  method Force(s: Server, kind: ForceKind, id: int, env: Env) returns (o: Outcome)
    requires s.Valid()
    modifies s
    ensures s.Valid() && s.config == old(s.config)
    ensures env.load.Fail? ==> o == env.load && s.Snapshot() == old(s.Snapshot())
    ensures env.load.Pass? && kind.RecreateLinks? ==>
      Step(s.Snapshot(), o) == MakeLinksSpec(old(s.Snapshot()), id, true, s.dirs, env)
    ensures env.load.Pass? && kind.OtherForce? ==>
      o == Fail(Failure("Unknow force request")) && s.Snapshot() == old(s.Snapshot())
  {
    if env.load.Fail? {
      return env.load;
    }
    if kind.RecreateLinks? {
      o := s.MakeLinks(id, true, env);
      return;
    }
    return Fail(Failure("Unknow force request"));
  }

  // ---------------------------------------------------------------------------
  // GetOutstanding
  // ---------------------------------------------------------------------------

  /** A non-empty map has a key. */
  lemma SomeKey(m: map<int, int>)
    requires m != map[]
    ensures exists k :: k in m
  {
    assert (forall k :: k !in m) ==> m == map[];
  }

  /** The values of a map, each as often as keys map to it. */
  ghost function Values(m: map<int, int>): multiset<int>
    decreases |m|
  {
    if m == map[] then multiset{}
    else
      SomeKey(m);
      var k :| k in m;
      multiset{m[k]} + Values(m - {k})
  }

  /** Taking out any key takes out exactly its value. */
  lemma {:induction false} ValuesWithout(m: map<int, int>, k: int)
    requires k in m
    ensures Values(m) == multiset{m[k]} + Values(m - {k})
    decreases |m|
  {
    var j :| j in m && Values(m) == multiset{m[j]} + Values(m - {j});
    if j != k {
      var rest := m - {j} - {k};
      assert m - {j} - {k} == m - {k} - {j};
      ValuesWithout(m - {j}, k);
      ValuesWithout(m - {k}, j);
      assert Values(m - {j}) == multiset{m[k]} + Values(rest);
      assert Values(m - {k}) == multiset{m[j]} + Values(rest);
    }
  }

  /** The keys a map sends to v. */
  ghost function KeysWith(m: map<int, int>, v: int): set<int>
  {
    set k | k in m && m[k] == v
  }

  /** Taking out a key takes it out of the keys of its value only. */
  lemma KeysWithout(m: map<int, int>, k: int, v: int)
    requires k in m
    ensures |KeysWith(m, v)| == |KeysWith(m - {k}, v)| + (if m[k] == v then 1 else 0)
  {
    if m[k] == v {
      assert KeysWith(m, v) == KeysWith(m - {k}, v) + {k};
    } else {
      assert KeysWith(m, v) == KeysWith(m - {k}, v);
    }
  }

  /** Each value occurs once per key that maps to it. */
  lemma {:induction false} ValuesCount(m: map<int, int>, v: int)
    ensures Values(m)[v] == |KeysWith(m, v)|
    decreases |m|
  {
    if m != map[] {
      SomeKey(m);
      var k :| k in m;
      var rest := m - {k};
      ValuesWithout(m, k);
      ValuesCount(rest, v);
      KeysWithout(m, k, v);
      assert Values(m)[v] == multiset{m[k]}[v] + Values(rest)[v];
    } else {
      assert KeysWith(m, v) == {};
    }
  }

  /** There are as many values as keys. */
  lemma {:induction false} ValuesSize(m: map<int, int>)
    ensures |Values(m)| == |m|
    decreases |m|
  {
    if m != map[] {
      SomeKey(m);
      var k :| k in m;
      ValuesWithout(m, k);
      ValuesSize(m - {k});
    }
  }

  /** GetOutstanding: the issue numbers of the issue mapping, in some order; a load
      error is returned. */
  method GetOutstanding(s: Server, env: Env) returns (r: Result<seq<int>>)
    ensures env.load.Fail? ==> r == Err(env.load.error)
    ensures env.load.Pass? ==> r.Ok? && multiset(r.value) == Values(s.config.issueMapping)
  {
    if env.load.Fail? {
      return Err(env.load.error);
    }
    var mapping := s.config.issueMapping;
    var nums: seq<int> := [];
    var left := mapping;
    while left != map[]
      invariant multiset(nums) + Values(left) == Values(mapping)
      decreases |left|
    {
      SomeKey(left);
      var k :| k in left;
      ValuesWithout(left, k);
      nums := nums + [left[k]];
      left := left - {k};
    }
    return Ok(nums);
  }

  // ---------------------------------------------------------------------------
  // updateMetrics
  // ---------------------------------------------------------------------------

  /** Eighteen hours, in nanoseconds. */
  const RecentWindow: int := 18 * 3600 * 1000000000

  /** The goal folder whose rips are not counted. */
  const UncountedFolder: int := 1782105

  /** A rip time, in seconds, counts as recent at `now`, in nanoseconds. */
  predicate IsRecent(ripTime: int, now: int)
  {
    now - ripTime * 1000000000 < RecentWindow
  }

  /** Whether updateMetrics counts a key: ripped recently, with a known goal folder
      other than the uncounted one. */
  predicate Counts(config: Config, now: int, k: int)
  {
    k in config.lastRipTime && k in config.goalFolder &&
    config.goalFolder[k] != UncountedFolder && IsRecent(config.lastRipTime[k], now)
  }

  /** The keys updateMetrics counts. */
  ghost function RecentRips(config: Config, now: int): set<int>
  {
    set k | k in config.lastRipTime && Counts(config, now, k)
  }

  /** The counted keys among some keys. */
  ghost function RecentAmong(config: Config, now: int, keys: set<int>): set<int>
  {
    set k | k in keys && Counts(config, now, k)
  }

  lemma RecentAmongAdd(config: Config, now: int, keys: set<int>, key: int)
    requires key !in keys
    ensures |RecentAmong(config, now, keys + {key})| ==
      |RecentAmong(config, now, keys)| + (if Counts(config, now, key) then 1 else 0)
  {
    if Counts(config, now, key) {
      assert RecentAmong(config, now, keys + {key}) == RecentAmong(config, now, keys) + {key};
    } else {
      assert RecentAmong(config, now, keys + {key}) == RecentAmong(config, now, keys);
    }
  }

  /** updateMetrics: the number of recently ripped records, at time `now`. */
  method UpdateMetrics(config: Config, now: int) returns (last24: nat)
    ensures last24 == |RecentRips(config, now)|
  {
    last24 := 0;
    var left := config.lastRipTime;
    ghost var seen: set<int> := {};
    while left != map[]
      invariant left == config.lastRipTime - seen
      invariant last24 == |RecentAmong(config, now, seen)|
      decreases |left|
    {
      SomeKey(left);
      var key :| key in left;
      var date := left[key];
      RecentAmongAdd(config, now, seen, key);
      if key in config.goalFolder && config.goalFolder[key] != UncountedFolder {
        if IsRecent(date, now) {
          last24 := last24 + 1;
        }
      }
      seen := seen + {key};
      left := left - {key};
    }
    assert RecentAmong(config, now, seen) == RecentRips(config, now);
  }
}
