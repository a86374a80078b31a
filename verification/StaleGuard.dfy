/** The double-collect guard of experiments/codex-paginated-stale-guard.ts: fingerprint a tree, read, and
    fingerprint it again, releasing what was read only when both fingerprints agree. */
module StaleGuard {
  import opened Common
  import opened WatchedStore

  const MAX_FILES := 1000
  const MAX_BYTES := 256 * 1024 * 1024
  const MAX_DEPTH := 8
  const BUFFER_BYTES := 64 * 1024
  const TOP_LEVEL: set<string> :=
    {"state_5.sqlite", "state_5.sqlite-wal", "state_5.sqlite-shm",
     "thread_history_1.sqlite", "thread_history_1.sqlite-wal", "thread_history_1.sqlite-shm", "sessions"}

  datatype Failure =
    StaleRead | Missing | OverLimit | UnexpectedSession | InvalidEntry | UnexpectedRoot | MissingRequired

  /** A digest is taken to be injective, so it is represented by the bytes it digests. */
  datatype Fingerprint = Fingerprint(meta: Meta, sha256: Option<seq<bv8>>)

  type Snapshot = map<Path, Fingerprint>

  predicate EndsWith(s: string, suffix: string) {
    |suffix| <= |s| && s[|s| - |suffix|..] == suffix
  }

  predicate UnexpectedSessionFile(p: Path) {
    |p| >= 2 && p[0] == "sessions" && !EndsWith(p[|p| - 1], ".jsonl")
  }

  predicate HasRequired(s: Snapshot) {
    && ["state_5.sqlite"] in s && s[["state_5.sqlite"]].sha256.Some?
    && ["thread_history_1.sqlite"] in s && s[["thread_history_1.sqlite"]].sha256.Some?
    && ["sessions"] in s && s[["sessions"]].sha256.None?
  }

  // --- What a fingerprint of an unchanging tree is ------------------------------------------------

  function TrueFingerprint(n: Node): Fingerprint {
    Fingerprint(n.meta, if IsFile(n.meta) then Some(n.content) else None)
  }

  /** Every entry under the root, once, with its metadata and the digest of the whole of every file. */
  ghost function Truth(s: Store): Snapshot
    requires WellFormed(s)
  {
    map p | p in s.tree :: TrueFingerprint(At(s, p))
  }

  ghost function Weight(f: Fingerprint, bytes: bool): nat {
    if f.sha256.None? then 0 else if bytes then f.meta.size else 1
  }

  /** The number of files in a snapshot, or the bytes they hold. */
  ghost function Total(s: Snapshot, bytes: bool): nat
    decreases |s|
  {
    if s == map[] then 0 else
      var p :| p in s;
      Weight(s[p], bytes) + Total(s - {p}, bytes)
  }

  /** An entry the guard is willing to record. */
  ghost predicate Admitted(p: Path, f: Fingerprint) {
    && (f.sha256.Some? <==> IsFile(f.meta))
    && (f.sha256.Some? ==> !UnexpectedSessionFile(p))
    && (f.sha256.None? ==> IsDirectory(f.meta) && |p| <= MAX_DEPTH)
    && (|p| == 1 ==> p[0] in TOP_LEVEL)
  }

  /** The trees the guard serves, said of the tree alone. */
  ghost predicate Acceptable(s: Store)
    requires WellFormed(s)
  {
    && [] in s.tree
    && (forall p <- s.tree :: Admitted(p, Truth(s)[p]))
    && Total(Truth(s), false) <= MAX_FILES
    && Total(Truth(s), true) <= MAX_BYTES
    && HasRequired(Truth(s))
  }

  lemma {:induction false} TotalAdd(s: Snapshot, p: Path, bytes: bool)
    requires p in s
    ensures Total(s, bytes) == Weight(s[p], bytes) + Total(s - {p}, bytes)
    decreases |s|
  {
    var q :| q in s && Total(s, bytes) == Weight(s[q], bytes) + Total(s - {q}, bytes);
    if q != p {
      assert (s - {q}) - {p} == (s - {p}) - {q};
      TotalAdd(s - {q}, p, bytes);
      TotalAdd(s - {p}, q, bytes);
    }
  }

  lemma {:induction false} TotalInsert(s: Snapshot, p: Path, f: Fingerprint, bytes: bool)
    requires p !in s
    ensures Total(s[p := f], bytes) == Total(s, bytes) + Weight(f, bytes)
  {
    TotalAdd(s[p := f], p, bytes);
    assert s[p := f] - {p} == s;
  }

  /** Exactly the files of a tree, each once. */
  ghost predicate Enumerates(files: seq<Path>, s: Store)
    requires WellFormed(s)
  {
    && (forall i, j | 0 <= i < j < |files| :: files[i] != files[j])
    && (forall p :: p in files <==> p in s.tree && IsFile(At(s, p).meta))
  }

  ghost function Sizes(files: seq<Path>, s: Store): nat
    requires forall p <- files :: p in s.tree && s.tree[p] in s.inodes
  {
    if files == [] then 0 else At(s, files[0]).meta.size + Sizes(files[1..], s)
  }

  /** The files the tree may hold: no more than a thousand, and no more than 256 MiB. */
  lemma {:induction false} TotalsExactly(s: Store, files: seq<Path>)
    requires WellFormed(s) && Enumerates(files, s)
    ensures Total(Truth(s), false) == |files| && Total(Truth(s), true) == Sizes(files, s)
  {
    TotalsAre(s, Truth(s), files);
  }

  lemma {:induction false} TotalsAre(s: Store, t: Snapshot, files: seq<Path>)
    requires WellFormed(s) && Within(t, Truth(s))
    requires forall i, j | 0 <= i < j < |files| :: files[i] != files[j]
    requires forall p :: p in files <==> p in t && t[p].sha256.Some?
    ensures Total(t, false) == |files| && (forall p <- files :: p in s.tree && s.tree[p] in s.inodes)
    ensures Total(t, true) == Sizes(files, s)
    decreases |t|
  {
    hide Total, WellFormed, Weight;
    InTheTree(s, t, files);
    if files != [] {
      var p := files[0];
      Dropped(s, t, p);
      TotalsAre(s, t - {p}, files[1..]);
    } else if t != map[] {
      var p :| p in t;
      Dropped(s, t, p);
      TotalsAre(s, t - {p}, files);
    } else {
      NothingTotals();
    }
  }

  lemma {:induction false} NothingTotals()
    ensures Total(map[], false) == Total(map[], true) == 0
  {
  }

  lemma {:induction false} InTheTree(s: Store, t: Snapshot, files: seq<Path>)
    requires WellFormed(s) && Within(t, Truth(s)) && forall p <- files :: p in t
    ensures forall p <- files :: p in s.tree && s.tree[p] in s.inodes
  {
  }

  lemma {:induction false} Dropped(s: Store, t: Snapshot, p: Path)
    requires WellFormed(s) && Within(t, Truth(s)) && p in t
    ensures Within(t - {p}, Truth(s)) && p in s.tree && s.tree[p] in s.inodes
    ensures Total(t, false) == (if t[p].sha256.Some? then 1 else 0) + Total(t - {p}, false)
    ensures Total(t, true) == (if t[p].sha256.Some? then At(s, p).meta.size else 0) + Total(t - {p}, true)
  {
    TotalAdd(t, p, false);
    TotalAdd(t, p, true);
    assert p in Truth(s);
  }

  lemma {:induction false} FilesEnumerate(s: Store, among: set<Path>) returns (files: seq<Path>)
    requires WellFormed(s) && among <= s.tree.Keys
    ensures forall i, j | 0 <= i < j < |files| :: files[i] != files[j]
    ensures forall p :: p in files <==> p in among && IsFile(At(s, p).meta)
  {
    files := [];
    if among != {} {
      var p :| p in among;
      files := FilesEnumerate(s, among - {p});
      if IsFile(At(s, p).meta) {
        files := files + [p];
      }
    }
  }

  /** A session file by its name: something, then ".jsonl". */
  ghost predicate Rollout(name: string) {
    exists stem: string :: name == stem + ".jsonl"
  }

  lemma {:induction false} RolloutExactly(name: string)
    ensures Rollout(name) <==> EndsWith(name, ".jsonl")
  {
    if EndsWith(name, ".jsonl") {
      assert name == name[..|name| - 6] + ".jsonl";
    }
    if Rollout(name) {
      var stem: string :| name == stem + ".jsonl";
      assert name[|stem|..] == ".jsonl";
    }
  }

  /** An entry the guard serves, in so many words. */
  ghost predicate Welcome(p: Path, meta: Meta) {
    && (IsFile(meta) || (IsDirectory(meta) && |p| <= 8))
    && (IsFile(meta) && |p| >= 2 && p[0] == "sessions" ==> Rollout(p[|p| - 1]))
    && (|p| == 1 ==>
          || p[0] == "sessions" || p[0] == "state_5.sqlite" || p[0] == "thread_history_1.sqlite"
          || p[0] == "state_5.sqlite-wal" || p[0] == "state_5.sqlite-shm"
          || p[0] == "thread_history_1.sqlite-wal" || p[0] == "thread_history_1.sqlite-shm")
  }

  /** The trees the guard serves: a root with both databases and the sessions, nothing unexpected in it, and no more
      than a thousand files or 256 MiB of them. */
  lemma {:induction false} AcceptableExactly(s: Store)
    requires WellFormed(s)
    ensures Acceptable(s) <==>
      && [] in s.tree && (forall p <- s.tree :: Welcome(p, At(s, p).meta))
      && ["state_5.sqlite"] in s.tree && IsFile(At(s, ["state_5.sqlite"]).meta)
      && ["thread_history_1.sqlite"] in s.tree && IsFile(At(s, ["thread_history_1.sqlite"]).meta)
      && ["sessions"] in s.tree && IsDirectory(At(s, ["sessions"]).meta)
      && exists files :: Enumerates(files, s) && |files| <= 1000 && Sizes(files, s) <= 268435456
  {
    hide Total, Sizes, HasRequired, Admitted, Welcome, IsFile, IsDirectory, Enumerates;
    LimitsExactly(s);
    forall p <- s.tree
      ensures Admitted(p, Truth(s)[p]) <==> Welcome(p, At(s, p).meta)
    {
      WelcomeExactly(s, p);
    }
    if forall p <- s.tree :: Welcome(p, At(s, p).meta) {
      RequiredExactly(s);
    }
  }

  lemma {:induction false} LimitsExactly(s: Store)
    requires WellFormed(s)
    ensures Total(Truth(s), false) <= MAX_FILES && Total(Truth(s), true) <= MAX_BYTES <==>
      exists files :: Enumerates(files, s) && |files| <= 1000 && Sizes(files, s) <= 268435456
  {
    hide Total, Sizes, Truth;
    var files := FilesEnumerate(s, s.tree.Keys);
    TotalsExactly(s, files);
    forall files' | Enumerates(files', s)
      ensures |files'| == |files| && Sizes(files', s) == Sizes(files, s)
    {
      TotalsExactly(s, files');
    }
  }

  lemma {:induction false} WelcomeExactly(s: Store, p: Path)
    requires WellFormed(s) && p in s.tree
    ensures Admitted(p, Truth(s)[p]) <==> Welcome(p, At(s, p).meta)
  {
    if |p| > 0 {
      RolloutExactly(p[|p| - 1]);
    }
  }

  lemma {:induction false} RequiredExactly(s: Store)
    requires WellFormed(s) && forall p <- s.tree :: Welcome(p, At(s, p).meta)
    ensures HasRequired(Truth(s)) <==>
      && ["state_5.sqlite"] in s.tree && IsFile(At(s, ["state_5.sqlite"]).meta)
      && ["thread_history_1.sqlite"] in s.tree && IsFile(At(s, ["thread_history_1.sqlite"]).meta)
      && ["sessions"] in s.tree && IsDirectory(At(s, ["sessions"]).meta)
  {
    var sessions := ["sessions"];
    if sessions in s.tree {
      assert Welcome(sessions, At(s, sessions).meta);
    }
  }

  ghost predicate Within(s: Snapshot, t: Snapshot) {
    forall p <- s :: p in t && t[p] == s[p]
  }

  lemma {:induction false} TotalWithin(s: Snapshot, t: Snapshot, bytes: bool)
    requires Within(s, t)
    ensures Total(s, bytes) <= Total(t, bytes)
    decreases |s|
  {
    if s != map[] {
      var p :| p in s;
      TotalAdd(s, p, bytes);
      TotalAdd(t, p, bytes);
      TotalWithin(s - {p}, t - {p}, bytes);
    }
  }

  // --- What one pass has seen of a changing tree ---------------------------------------------------

  /** The instants of an entry's first and last look; a directory is listed between them. */
  datatype Span = Span(first: nat, last: nat)

  ghost predicate Shows(s: Store, p: Path, meta: Meta) {
    WellFormed(s) && p in s.tree && At(s, p).meta == meta
  }

  /** A listing reads a directory's names one after the other, from the directory it opened: while the path leads there
      and nowhere else, each name is given exactly if it was there at some instant of the listing. */
  ghost predicate Listed(w: World, from: nat, to: nat, dir: Path, name: string, given: bool) {
    Still(w, from, to, dir) ==> exists t: nat :: from <= t <= to && (dir + [name] in w(t).tree <==> given)
  }

  ghost predicate Lists(w: World, s: Snapshot, span: Span, dir: Path, name: string) {
    Listed(w, span.first, span.last, dir, name, dir + [name] in s)
  }

  lemma {:induction false} ListedLonger(w: World, from: nat, mid: nat, to: nat, dir: Path, name: string, given: bool)
    requires Listed(w, from, mid, dir, name, given) && from <= mid <= to
    ensures Listed(w, from, to, dir, name, given)
  {
    if Still(w, from, to, dir) {
      StillWithin(w, from, to, from, mid, dir);
    }
  }

  lemma {:induction false} StillWhileFrozen(w: World, from: nat, to: nat, t: nat, dir: Path)
    requires WellFormed(w(from)) && Frozen(w, from, to) && dir in w(from).tree && from <= t <= to
    ensures Still(w, from, t, dir)
  {
  }

  lemma {:induction false} ListedWhileFrozen(w: World, start: nat, end: nat, from: nat, to: nat, dir: Path,
                                             name: string, given: bool)
    requires WellFormed(w(start)) && Frozen(w, start, end) && start <= from <= to <= end && dir in w(start).tree
    requires Listed(w, from, to, dir, name, given)
    ensures dir + [name] in w(start).tree <==> given
  {
    StillWhileFrozen(w, start, end, end, dir);
    StillWithin(w, start, end, from, to, dir);
    var t: nat :| from <= t <= to && (dir + [name] in w(t).tree <==> given);
    assert w(t).tree == w(start).tree;
  }

  /** The recorded fingerprint held at both ends of the entry's span; a directory's listing is complete. */
  ghost predicate Observed(w: World, s: Snapshot, spans: map<Path, Span>, p: Path) {
    && p in s && p in spans && Admitted(p, s[p])
    && spans[p].first <= spans[p].last
    && Shows(w(spans[p].first), p, s[p].meta)
    && Shows(w(spans[p].last), p, s[p].meta)
    && (s[p].sha256.Some? ==> TrueFingerprint(At(w(spans[p].last), p)) == s[p])
    && (s[p].sha256.None? ==> forall name: string :: Lists(w, s, spans[p], p, name))
  }

  /** An entry is looked at only between the first and the last look at its directory. */
  ghost predicate Nested(spans: map<Path, Span>, p: Path) {
    p in spans && (p != [] ==>
      && Parent(p) in spans
      && spans[Parent(p)].first <= spans[p].first
      && spans[p].last <= spans[Parent(p)].last)
  }

  ghost predicate Tracked(w: World, s: Snapshot, spans: map<Path, Span>, from: nat, to: nat, p: Path) {
    p in s ==> Observed(w, s, spans, p) && Nested(spans, p) && from <= spans[p].first && spans[p].last <= to
  }

  ghost predicate Pass(w: World, s: Snapshot, spans: map<Path, Span>, from: nat, to: nat) {
    && [] in s
    && s.Keys == spans.Keys
    && (forall p :: Tracked(w, s, spans, from, to, p))
  }

  /** Two passes, the earlier over before the later begins, that agreed on what they recorded. */
  ghost predicate Agreed(w: World, s: Snapshot, one: map<Path, Span>, two: map<Path, Span>, b: nat, c: nat) {
    && b <= c
    && (exists a: nat :: Pass(w, s, one, a, b))
    && (exists d: nat :: Pass(w, s, two, c, d))
  }

  lemma {:induction false} AgreedOn(w: World, s: Snapshot, one: map<Path, Span>, two: map<Path, Span>, b: nat, c: nat,
                                    p: Path)
    requires Agreed(w, s, one, two, b, c) && p in s
    ensures Observed(w, s, one, p) && Nested(one, p) && one[p].last <= b
    ensures Observed(w, s, two, p) && Nested(two, p) && c <= two[p].first
    ensures p != [] ==> Parent(p) in s
  {
    var a: nat :| Pass(w, s, one, a, b);
    var d: nat :| Pass(w, s, two, c, d);
    assert Tracked(w, s, one, a, b, p) && Tracked(w, s, two, c, d, p);
  }

  /** Every recorded entry was still from its first look in the earlier pass to its last in the later. */
  lemma {:induction false} RecordedStill(w: World, s: Snapshot, one: map<Path, Span>, two: map<Path, Span>,
                                         b: nat, c: nat, p: Path)
    requires Agreed(w, s, one, two, b, c) && p in s && p in one && p in two
    ensures one[p].first <= b && c <= two[p].last && Still(w, one[p].first, two[p].last, p)
    decreases |p|
  {
    AgreedOn(w, s, one, two, b, c, p);
    var from, to := one[p].first, two[p].last;
    assert WellFormed(w(from));
    ClockAdvances(w, from, to);
    if p == [] {
      RootStill(w, from, to);
    } else {
      var dir := Parent(p);
      RecordedStill(w, s, one, two, b, c, dir);
      StillWithin(w, one[dir].first, two[dir].last, from, to, dir);
      ChildStill(w, from, to, p);
    }
  }

  lemma {:induction false} StillWithin(w: World, a: nat, d: nat, from: nat, to: nat, p: Path)
    requires Still(w, a, d, p) && a <= from <= to <= d
    ensures Still(w, from, to, p)
  {
  }

  lemma {:induction false} StillAt(w: World, s: Snapshot, one: map<Path, Span>, two: map<Path, Span>,
                                   b: nat, c: nat, p: Path, t: nat)
    requires p in s && p in one && p in two && Observed(w, s, one, p) && p in w(t).tree && w(t).tree[p] in w(t).inodes
    requires Still(w, one[p].first, two[p].last, p) && one[p].first <= b <= t <= c <= two[p].last
    ensures At(w(t), p).meta == s[p].meta
  {
    hide Lists;
  }

  lemma {:induction false} ObservedLists(w: World, s: Snapshot, spans: map<Path, Span>, p: Path, name: string)
    requires Observed(w, s, spans, p) && IsDirectory(s[p].meta)
    ensures Lists(w, s, spans[p], p, name)
  {
    DirectoryIsNotFile(s[p].meta);
    hide Lists;
  }

  /** An entry of a recorded directory is recorded. */
  lemma {:induction false} EntryIsRecorded(w: World, s: Snapshot, one: map<Path, Span>, two: map<Path, Span>,
                                           b: nat, c: nat, dir: Path, name: string, t: nat)
    requires Agreed(w, s, one, two, b, c) && dir in s && b <= t <= c
    requires dir in w(t).tree && w(t).tree[dir] in w(t).inodes && IsDirectory(At(w(t), dir).meta)
    requires dir + [name] in w(t).tree
    ensures dir + [name] in s
  {
    hide Agreed, Still, Admitted, Nested, Lists, WellFormed, IsDirectory;
    AgreedOn(w, s, one, two, b, c, dir);
    RecordedStill(w, s, one, two, b, c, dir);
    StillAt(w, s, one, two, b, c, dir, t);
    ObservedLists(w, s, one, dir, name);
    ListedMeans(w, s, one[dir], two[dir].last, dir, name, t);
  }

  /** Nothing the passes did not record was there between them. */
  lemma {:induction false} NothingElse(w: World, s: Snapshot, one: map<Path, Span>, two: map<Path, Span>,
                                       b: nat, c: nat, p: Path, t: nat)
    requires Agreed(w, s, one, two, b, c) && [] in s && b <= t <= c && p in w(t).tree
    ensures p in s
    decreases |p|
  {
    hide Agreed, IsDirectory;
    if p != [] {
      var dir, name := Parent(p), p[|p| - 1];
      assert WellFormed(w(t)) && Rooted(w(t), p);
      NothingElse(w, s, one, two, b, c, dir, t);
      assert dir + [name] == p;
      EntryIsRecorded(w, s, one, two, b, c, dir, name, t);
    }
  }

  /** In a directory that is still, what its listing gave is there all along, and nothing else. */
  lemma {:induction false} ListedMeans(w: World, s: Snapshot, span: Span, last: nat, dir: Path, name: string, t: nat)
    requires Lists(w, s, span, dir, name) && span.first <= span.last <= last && span.first <= t <= last
    requires Still(w, span.first, last, dir)
    ensures dir + [name] in s <==> dir + [name] in w(t).tree
  {
    StillWithin(w, span.first, last, span.first, span.last, dir);
    var seen: nat :| span.first <= seen <= span.last && (dir + [name] in w(seen).tree <==> dir + [name] in s);
    var p := dir + [name];
    assert Parent(p) == dir;
    EntriesStill(w, span.first, last, p);
    assert SameBinding(w(span.first), w(t), p) && SameBinding(w(span.first), w(seen), p);
  }

  lemma {:induction false} DirectoryIsNotFile(meta: Meta)
    ensures !(IsFile(meta) && IsDirectory(meta))
  {
  }

  /** The safety of the double collect: if both passes recorded the same snapshot, then at every instant
      between them the whole tree was exactly that snapshot, bytes included. */
  lemma {:induction false} DoubleCollect(w: World, s: Snapshot, one: map<Path, Span>, two: map<Path, Span>, b: nat,
                                         c: nat, t: nat)
    requires Agreed(w, s, one, two, b, c) && [] in s && b <= t <= c
    ensures WellFormed(w(t)) && WellFormed(w(b)) && Truth(w(t)) == s && View(w(t)) == View(w(b))
  {
    assert WellFormed(w(t)) && WellFormed(w(b));
    forall p
      ensures p in w(t).tree <==> p in s
      ensures p in w(b).tree <==> p in s
      ensures p in s ==> At(w(t), p) == At(w(b), p) && TrueFingerprint(At(w(t), p)) == s[p]
    {
      if p in w(t).tree { NothingElse(w, s, one, two, b, c, p, t); }
      if p in w(b).tree { NothingElse(w, s, one, two, b, c, p, b); }
      if p in s {
        AgreedOn(w, s, one, two, b, c, p);
        RecordedStill(w, s, one, two, b, c, p);
      }
    }
  }

  // --- One pass over the tree -----------------------------------------------------------------------

  /** The pass's own state, with the clock the other processes run on. */
  class Fingerprinter {
    const world: World
    var now: nat
    var result: Snapshot
    var files: nat
    var bytes: nat
    ghost var spans: map<Path, Span>

    constructor (world: World, start: nat)
      ensures this.world == world && now == start && result == map[] && spans == map[] && files == bytes == 0
    {
      this.world, now, result, spans, files, bytes := world, start, map[], map[], 0, 0;
    }

    ghost predicate Counted()
      reads this
    {
      && result.Keys == spans.Keys
      && files == Total(result, false) <= MAX_FILES
      && bytes == Total(result, true) <= MAX_BYTES
    }

    /** Other processes may run between any two observations. */
    method Tick()
      modifies `now
      ensures old(now) <= now
    {
      var pause: nat :| true;
      now := now + pause;
    }

    method Lstat(path: Path) returns (r: Option<Meta>)
      modifies `now
      ensures old(now) <= now
      ensures r == if path in world(now).tree then Some(At(world(now), path).meta) else None
    {
      Tick();
      var s := world(now);
      assert WellFormed(s);
      r := if path in s.tree then Some(At(s, path).meta) else None;
    }

    /** Reads through an open handle until `size` bytes have arrived, or the file turns out shorter. */
    method ReadWhole(handle: nat, size: nat) returns (digest: seq<bv8>, ghost times: seq<nat>)
      requires handle in world(now).inodes
      modifies `now
      ensures old(now) <= now && |times| == |digest| <= size
      ensures forall k | 0 <= k < |digest| :: ReadAt(handle, old(now), now, times[k], k, digest[k])
      ensures |digest| < size ==> exists t: nat ::
        old(now) <= t <= now && handle in world(t).inodes && |world(t).inodes[handle].content| < size
    {
      digest, times := [], [];
      while |digest| < size
        invariant |digest| <= size && |times| == |digest| && old(now) <= now
        invariant forall k | 0 <= k < |digest| :: ReadAt(handle, old(now), now, times[k], k, digest[k])
        decreases size - |digest|
      {
        Tick();
        ClockAdvances(world, old(now), now);
        var content := world(now).inodes[handle].content;
        if |content| <= |digest| { return; }
        // A read may return fewer bytes than were asked for, but at least one.
        var wanted := if size - |digest| < BUFFER_BYTES then size - |digest| else BUFFER_BYTES;
        var got: nat :| 0 < got <= wanted && got <= |content| - |digest|;
        ghost var instant := now;
        times := times + seq(got, _ => instant);
        digest := digest + content[|digest|..|digest| + got];
      }
    }

    ghost predicate ReadAt(handle: nat, from: nat, to: nat, t: nat, k: nat, value: bv8)
    {
      && from <= t <= to && handle in world(t).inodes
      && k < |world(t).inodes[handle].content| && world(t).inodes[handle].content[k] == value
    }

    /** A successful hash names an instant at which the path led to exactly those bytes. */
    method HashStableFile(path: Path, before: Meta)
      returns (r: Option<Fingerprint>, e: Option<Failure>, ghost openedAt: nat)
      requires Counted()
      requires Shows(world(now), path, before)
      modifies `now, `files, `bytes
      ensures old(now) <= openedAt <= now
      ensures r.Some? <==> e.None?
      ensures r.Some? ==>
        && Shows(world(openedAt), path, before) && IsFile(before)
        && r.value == TrueFingerprint(At(world(openedAt), path))
        && files == old(files) + 1 <= MAX_FILES && bytes == old(bytes) + before.size <= MAX_BYTES
      ensures e.Some? && IsFile(before) && Frozen(world, old(now), now) ==>
        e.value == OverLimit && (old(files) + 1 > MAX_FILES || old(bytes) + before.size > MAX_BYTES)
    {
      openedAt := now;
      r, e := None, None;
      if !IsFile(before) { e := Some(OverLimit); return; }
      files := files + 1;
      if files > MAX_FILES { e := Some(OverLimit); return; }
      bytes := bytes + before.size;
      if bytes > MAX_BYTES { e := Some(OverLimit); return; }
      Tick();
      openedAt := now;
      assert WellFormed(world(now));
      if path !in world(now).tree { e := Some(Missing); return; }
      var handle := world(now).tree[path];
      Tick();
      ClockAdvances(world, old(now), openedAt);
      ClockAdvances(world, openedAt, now);
      if world(now).inodes[handle].meta != before { e := Some(StaleRead); return; }
      ghost var stated := now;
      InodeStill(world, openedAt, stated, handle);
      var digest, times := ReadWhole(handle, before.size);
      assert WellFormed(world(stated));
      ClockAdvances(world, stated, now);
      if |digest| < before.size { e := Some(StaleRead); return; }
      Tick();
      ClockAdvances(world, stated, now);
      if world(now).inodes[handle].meta != before { e := Some(StaleRead); return; }
      InodeStill(world, stated, now, handle);
      assert digest == world(openedAt).inodes[handle].content;
      r := Some(Fingerprint(before, Some(digest)));
    }

    /** fingerprintTree's inner `record`; the depth it is called with is the length of the path. Names are
        taken in any order, of which the sorted one is one. */
    method Record(path: Path) returns (e: Option<Failure>)
      requires Counted() && |path| <= MAX_DEPTH + 1
      requires |path| == 1 ==> path[0] in TOP_LEVEL
      requires forall p <- result :: !(path <= p)
      modifies this
      ensures old(now) <= now
      ensures e.None? ==> Counted() && Recorded(world, path, old(result), old(spans), old(now), now, result, spans)
      ensures e.Some? ==> Hopeless(world, old(now), now, old(result), path, e.value)
      decreases MAX_DEPTH + 1 - |path|, 2
    {
      ghost var from, before', spans' := now, result, spans;
      var before := Lstat(path);
      assert WellFormed(world(now));
      if before.None? {
        MovedIsHopeless(world, from, from, now, now, result, path, Missing);
        return Some(Missing);
      }
      var meta := before.value;
      ghost var looked := now;
      if (IsFile(meta) && UnexpectedSessionFile(path))
        || (!IsFile(meta) && (!IsDirectory(meta) || |path| > MAX_DEPTH)) {
        e := Some(if IsFile(meta) then UnexpectedSession else InvalidEntry);
        RefusedIsHopeless(world, from, now, result, path, meta);
        return;
      }
      if IsFile(meta) {
        e := RecordFile(path, meta);
      } else {
        e := RecordDirectory(path, meta);
      }
      if e.None? {
        RecordedEarlier(world, path, before', spans', from, looked, now, result, spans);
      } else {
        HopelessEarlier(world, from, looked, now, before', path, before', path, e.value);
      }
    }

    method RecordFile(path: Path, meta: Meta) returns (e: Option<Failure>)
      requires Counted() && Shows(world(now), path, meta) && IsFile(meta)
      requires !UnexpectedSessionFile(path) && (|path| == 1 ==> path[0] in TOP_LEVEL)
      requires path !in result
      modifies this
      ensures old(now) <= now
      ensures e.None? ==> Counted() && Recorded(world, path, old(result), old(spans), old(now), now, result, spans)
      ensures e.Some? ==> Hopeless(world, old(now), now, old(result), path, e.value)
    {
      ghost var looked := now;
      var f, failed, openedAt := HashStableFile(path, meta);
      if failed.Some? {
        BudgetSpent(world, looked, now, result, path);
        return failed;
      }
      TotalInsert(result, path, f.value, false);
      TotalInsert(result, path, f.value, true);
      result, spans := result[path := f.value], spans[path := Span(looked, openedAt)];
      return None;
    }

    /** Reads the names of an open directory, a few at a time; each is settled at one instant. A path that leads
        elsewhere by then says nothing of what is read. */
    method ReadNames(path: Path, handle: nat) returns (names: set<string>)
      modifies `now
      ensures old(now) <= now
      ensures forall name: string :: ReadAsOf(path, handle, old(now), now, name, name in names)
    {
      names := {};
      var settled: set<string> := {};
      var budget: nat :| true;
      while budget > 0
        invariant old(now) <= now && names <= settled
        invariant forall name <- settled :: ReadAsOf(path, handle, old(now), now, name, name in names)
        decreases budget
      {
        var few: set<string> :| few !! settled;
        var found := NamesNow(path, handle);
        names, settled, budget := names + few * found, settled + few, budget - 1;
        assert forall name <- few :: ReadAsOf(path, handle, old(now), now, name, name in names);
      }
      var found := NamesNow(path, handle);
      names := names + (found - settled);
      assert forall name: string | name !in settled :: ReadAsOf(path, handle, old(now), now, name, name in names);
    }

    method NamesNow(path: Path, handle: nat) returns (found: set<string>)
      modifies `now
      ensures old(now) <= now
      ensures Leads(world(now), path, handle) ==> forall name: string :: name in found <==>
        path + [name] in world(now).tree
    {
      Tick();
      if Leads(world(now), path, handle) {
        found := Names(world(now), path);
      } else {
        found :| true;
      }
    }

    ghost predicate ReadAsOf(path: Path, handle: nat, from: nat, to: nat, name: string, given: bool) {
      exists t: nat :: from <= t <= to
        && (Leads(world(t), path, handle) ==> (path + [name] in world(t).tree <==> given))
    }

    /** The names in a directory, read between two looks at its metadata. */
    method ListDirectory(path: Path, meta: Meta) returns (names: set<string>, e: Option<Failure>, ghost listed: nat)
      requires Shows(world(now), path, meta) && IsDirectory(meta)
      modifies `now
      ensures old(now) <= listed <= now
      ensures e.None? ==>
        && (forall name: string :: Listed(world, old(now), listed, path, name, name in names))
        && (path == [] ==> names <= TOP_LEVEL)
      ensures e.Some? ==> Hopeless(world, old(now), now, result, path, e.value)
    {
      ghost var looked := now;
      Tick();
      listed, names, e := now, {}, None;
      assert WellFormed(world(now)) && WellFormed(world(looked));
      if path !in world(now).tree || !IsDirectory(At(world(now), path).meta) {
        MovedIsHopeless(world, looked, looked, now, now, result, path, Missing);
        return {}, Some(Missing), listed;
      }
      ghost var openedAt := now;
      var handle := world(now).tree[path];
      names := ReadNames(path, handle);
      listed := now;
      forall name: string
        ensures Listed(world, looked, listed, path, name, name in names)
      {
        ReadIsListed(looked, openedAt, listed, path, handle, name, name in names);
      }
      if path == [] && !(names <= TOP_LEVEL) {
        UnexpectedName(world, looked, now, result, names);
        return {}, Some(UnexpectedRoot), listed;
      }
      var after := Lstat(path);
      if after != Some(meta) {
        e := Some(if after.None? then Missing else StaleRead);
        MovedIsHopeless(world, looked, looked, now, now, result, path, e.value);
        return {}, e, listed;
      }
    }

    lemma {:induction false} ReadIsListed(looked: nat, openedAt: nat, listed: nat, path: Path, handle: nat,
                                          name: string, given: bool)
      requires looked <= openedAt <= listed && ReadAsOf(path, handle, openedAt, listed, name, given)
      requires Leads(world(openedAt), path, handle)
      ensures Listed(world, looked, listed, path, name, given)
    {
      if Still(world, looked, listed, path) {
        var t: nat :|
          openedAt <= t <= listed && (Leads(world(t), path, handle) ==> (path + [name] in world(t).tree <==> given));
        assert Leads(world(t), path, handle);
      }
    }

    method RecordDirectory(path: Path, meta: Meta) returns (e: Option<Failure>)
      requires Counted() && Shows(world(now), path, meta) && IsDirectory(meta)
      requires |path| <= MAX_DEPTH && (|path| == 1 ==> path[0] in TOP_LEVEL)
      requires forall p <- result :: !(path <= p)
      modifies this
      ensures old(now) <= now
      ensures e.None? ==> Counted() && Recorded(world, path, old(result), old(spans), old(now), now, result, spans)
      ensures e.Some? ==> Hopeless(world, old(now), now, old(result), path, e.value)
      decreases MAX_DEPTH + 1 - |path|, 1
    {
      ghost var looked, before, spansBefore := now, result, spans;
      var names, unlisted, listed := ListDirectory(path, meta);
      if unlisted.Some? { return unlisted; }
      TotalInsert(result, path, Fingerprint(meta, None), false);
      TotalInsert(result, path, Fingerprint(meta, None), true);
      result := result[path := Fingerprint(meta, None)];
      spans := spans[path := Span(looked, now)];
      e := RecordEntries(path, meta, names, before, spansBefore, looked, listed);
      if e.Some? { return; }
      ghost var ended, spans' := now, spans;
      var last := Lstat(path);
      if last != Some(meta) {
        e := Some(if last.None? then Missing else StaleRead);
        MovedIsHopeless(world, looked, looked, now, now, before, path, e.value);
        return;
      }
      spans := spans[path := Span(looked, now)];
      assert WellFormed(world(now));
      PartialEnds(world, path, meta, before, spansBefore, looked, listed, ended, now, names, result, spans', spans);
    }

    method RecordEntries(path: Path, meta: Meta, names: set<string>, ghost before: Snapshot,
                         ghost spansBefore: map<Path, Span>, ghost looked: nat,
                         ghost listed: nat) returns (e: Option<Failure>)
      requires Counted() && |path| <= MAX_DEPTH && looked <= listed <= now
      requires Shows(world(looked), path, meta) && IsDirectory(meta)
      requires path == [] ==> names <= TOP_LEVEL
      requires forall name <- names :: Listed(world, looked, listed, path, name, true)
      requires Partial(world, path, before, spansBefore, looked, now, {}, result, spans)
      requires IsRoot(path, meta, looked, result, spans)
      requires forall p <- before :: !(path <= p)
      modifies this
      ensures old(now) <= now
      ensures e.None? ==>
        && Counted() && IsRoot(path, meta, looked, result, spans)
        && Partial(world, path, before, spansBefore, looked, now, names, result, spans)
      ensures e.Some? ==> Hopeless(world, looked, now, before, path, e.value)
      decreases MAX_DEPTH + 1 - |path|, 0
    {
      var pending := names;
      assert names - pending == {};
      while pending != {}
        invariant Counted() && listed <= now && old(now) <= now && pending <= names
        invariant Partial(world, path, before, spansBefore, looked, now, names - pending, result, spans)
        invariant IsRoot(path, meta, looked, result, spans)
        decreases pending
      {
        var name :| name in pending;
        var child := path + [name];
        ghost var r0, sp0, t0, done := result, spans, now, names - pending;
        PartialLeaves(world, path, before, spansBefore, looked, now, done, name, result, spans);
        var failed := Record(child);
        if failed.Some? {
          EntryIsHopeless(world, path, meta, name, before, spansBefore, looked, listed, t0, now, done, r0, sp0,
                          failed.value);
          return failed;
        }
        PartialGrows(world, path, before, spansBefore, looked, t0, now, done, name, r0, sp0, result, spans);
        pending := pending - {name};
        assert names - pending == done + {name};
      }
      assert names - pending == names;
      return None;
    }
  }

  ghost predicate IsRoot(path: Path, meta: Meta, looked: nat, s: Snapshot, spans: map<Path, Span>) {
    && path in s && s[path] == Fingerprint(meta, None)
    && path in spans && spans[path].first == looked
  }

  /** What recording `path` and everything below it adds to the snapshot. */
  ghost predicate Recorded(w: World, path: Path, before: Snapshot, spansBefore: map<Path, Span>,
                           from: nat, to: nat, s: Snapshot, spans: map<Path, Span>) {
    && path in s && s.Keys == spans.Keys
    && (forall p :: Kept(p, before, spansBefore, s, spans))
    && (forall p :: Added(w, p, path, before, from, to, s, spans))
  }

  ghost predicate Kept(p: Path, before: Snapshot, spansBefore: map<Path, Span>, s: Snapshot, spans: map<Path, Span>) {
    p in before ==> p in s && s[p] == before[p] && p in spans && p in spansBefore && spans[p] == spansBefore[p]
  }

  ghost predicate Added(w: World, p: Path, path: Path, before: Snapshot, from: nat, to: nat,
                        s: Snapshot, spans: map<Path, Span>) {
    p in s && p !in before ==>
      && path <= p
      && Observed(w, s, spans, p) && from <= spans[p].first && spans[p].last <= to
      && (p != path ==> Nested(spans, p))
  }

  lemma {:induction false} RecordedEarlier(w: World, path: Path, before: Snapshot, spansBefore: map<Path, Span>,
                        earlier: nat, from: nat, to: nat, s: Snapshot, spans: map<Path, Span>)
    requires earlier <= from && Recorded(w, path, before, spansBefore, from, to, s, spans)
    ensures Recorded(w, path, before, spansBefore, earlier, to, s, spans)
  {
    forall p
      ensures Added(w, p, path, before, earlier, to, s, spans)
    {
      assert Added(w, p, path, before, from, to, s, spans);
    }
  }

  /** A directory whose entries in `done` have been recorded, its own last look still to come. */
  ghost predicate Partial(w: World, path: Path, before: Snapshot, spansBefore: map<Path, Span>, from: nat, to: nat,
                          done: set<string>, s: Snapshot, spans: map<Path, Span>) {
    && path in s && path !in before && s.Keys == spans.Keys
    && (forall p :: Kept(p, before, spansBefore, s, spans))
    && (forall p :: Below(w, p, path, before, from, to, done, s, spans))
    && (forall name <- done :: path + [name] in s)
  }

  ghost predicate Below(w: World, p: Path, path: Path, before: Snapshot, from: nat, to: nat, done: set<string>,
                        s: Snapshot, spans: map<Path, Span>) {
    p in s && p !in before && p != path ==>
      && path <= p && |path| < |p| && p[|path|] in done
      && Observed(w, s, spans, p) && from <= spans[p].first && spans[p].last <= to
      && (|p| > |path| + 1 ==> Nested(spans, p))
  }

  /** Nothing below an entry that is still to be recorded has been recorded. */
  lemma {:induction false} PartialLeaves(w: World, path: Path, before: Snapshot, spansBefore: map<Path, Span>,
                                         from: nat, to: nat, done: set<string>, name: string, s: Snapshot,
                                         spans: map<Path, Span>)
    requires Partial(w, path, before, spansBefore, from, to, done, s, spans) && name !in done
    requires forall p <- before :: !(path <= p)
    ensures forall p <- s :: !(path + [name] <= p)
  {
    forall p <- s
      ensures !(path + [name] <= p)
    {
      assert Below(w, p, path, before, from, to, done, s, spans);
      assert (path + [name])[|path|] == name && |path + [name]| == |path| + 1;
    }
  }

  /** The last look at a directory completes it. */
  lemma {:induction false} PartialEnds(w: World, path: Path, meta: Meta, before: Snapshot, spansBefore: map<Path, Span>,
                    looked: nat, listed: nat, ended: nat, last: nat,
                    names: set<string>, s: Snapshot, spans: map<Path, Span>, spans': map<Path, Span>)
    requires Partial(w, path, before, spansBefore, looked, ended, names, s, spans)
      && IsRoot(path, meta, looked, s, spans)
    requires looked <= listed <= ended <= last
    requires Shows(w(looked), path, meta) && Shows(w(last), path, meta) && IsDirectory(meta)
    requires |path| <= MAX_DEPTH && (|path| == 1 ==> path[0] in TOP_LEVEL)
    requires forall name: string :: Listed(w, looked, listed, path, name, name in names)
    requires forall p <- before :: !(path <= p)
    requires spans' == spans[path := Span(looked, last)]
    ensures Recorded(w, path, before, spansBefore, looked, last, s, spans')
  {
    DirectoryIsNotFile(meta);
    forall p
      ensures Kept(p, before, spansBefore, s, spans')
    {
      assert Kept(p, before, spansBefore, s, spans);
    }
    forall name: string
      ensures Lists(w, s, spans'[path], path, name)
    {
      assert Below(w, path + [name], path, before, looked, ended, names, s, spans);
      assert Listed(w, looked, listed, path, name, name in names);
      ListedLonger(w, looked, listed, last, path, name, name in names);
    }
    assert Observed(w, s, spans', path);
    forall p
      ensures Added(w, p, path, before, looked, last, s, spans')
    {
      assert Below(w, p, path, before, looked, ended, names, s, spans);
      if p in s && p !in before && p != path {
        LaterLook(w, path, looked, ended, last, s, spans, spans', p);
      }
    }
  }

  lemma {:induction false} LaterLook(w: World, path: Path, looked: nat, ended: nat, last: nat,
                  s: Snapshot, spans: map<Path, Span>, spans': map<Path, Span>, p: Path)
    requires path in spans && spans' == spans[path := Span(looked, last)] && p != path && path <= p
    requires spans[path].first == looked && ended <= last
    requires Observed(w, s, spans, p) && looked <= spans[p].first && spans[p].last <= ended
    requires |p| > |path| + 1 ==> Nested(spans, p)
    ensures Observed(w, s, spans', p) && Nested(spans', p)
  {
    if |p| == |path| + 1 {
      assert Parent(p) == path;
    }
  }

  lemma {:induction false} PartialGrows(w: World, path: Path, before: Snapshot, spansBefore: map<Path, Span>, from: nat,
                                        mid: nat, to: nat, done: set<string>, name: string, s: Snapshot,
                                        spans: map<Path, Span>, s': Snapshot, spans': map<Path, Span>)
    requires Partial(w, path, before, spansBefore, from, mid, done, s, spans) && name !in done
    requires Recorded(w, path + [name], s, spans, mid, to, s', spans') && from <= mid <= to
    ensures Partial(w, path, before, spansBefore, from, to, done + {name}, s', spans')
    ensures s'[path] == s[path] && spans'[path] == spans[path]
  {
    assert Kept(path, s, spans, s', spans');
    forall p
      ensures Kept(p, before, spansBefore, s', spans')
    {
      assert Kept(p, before, spansBefore, s, spans) && Kept(p, s, spans, s', spans');
    }
    forall p
      ensures Below(w, p, path, before, from, to, done + {name}, s', spans')
    {
      assert Below(w, p, path, before, from, mid, done, s, spans);
      assert Kept(p, s, spans, s', spans') && Added(w, p, path + [name], s, mid, to, s', spans');
      if p in s && p !in before && p != path {
        ObservedStays(w, path, name, mid, to, p, s, spans, s', spans');
        if |p| > |path| + 1 {
          assert Kept(Parent(p), s, spans, s', spans');
        }
      }
    }
    forall n <- done + {name}
      ensures path + [n] in s'
    {
      assert Kept(path + [n], s, spans, s', spans');
    }
  }

  /** Recording one entry of a directory adds nothing below the others. */
  lemma {:induction false} ObservedStays(w: World, path: Path, name: string, mid: nat, to: nat, p: Path, s: Snapshot,
                                         spans: map<Path, Span>, s': Snapshot, spans': map<Path, Span>)
    requires Observed(w, s, spans, p) && path <= p && |path| < |p| && p[|path|] != name
    requires Recorded(w, path + [name], s, spans, mid, to, s', spans')
    ensures Observed(w, s', spans', p)
  {
    assert Kept(p, s, spans, s', spans');
    forall x: string
      ensures Lists(w, s, spans[p], p, x) ==> Lists(w, s', spans[p], p, x)
    {
      assert (p + [x])[|path|] == p[|path|];
      assert Kept(p + [x], s, spans, s', spans');
      assert Added(w, p + [x], path + [name], s, mid, to, s', spans');
    }
  }

  lemma {:induction false} UnexpectedName(w: World, from: nat, to: nat, sofar: Snapshot, names: set<string>)
    requires from <= to && exists name: string :: name in names && name !in TOP_LEVEL
    requires forall name: string :: Listed(w, from, to, [], name, name in names)
    requires [] in w(from).tree
    ensures Hopeless(w, from, to, sofar, [], UnexpectedRoot)
  {
    if Frozen(w, from, to) && Promising(w(from), sofar) {
      var name :| name in names && name !in TOP_LEVEL;
      assert Listed(w, from, to, [], name, name in names);
      ListedWhileFrozen(w, from, to, from, to, [], name, true);
      assert [] + [name] == [name] && [name] in w(from).tree;
    }
  }

  predicate Leads(s: Store, path: Path, handle: nat) {
    path in s.tree && s.tree[path] == handle
  }

  function Names(s: Store, dir: Path): (names: set<string>)
    ensures forall name :: name in names <==> dir + [name] in s.tree
  {
    var names := set q | q in s.tree.Keys && |q| == |dir| + 1 && dir <= q :: q[|dir|];
    assert forall name :: dir + [name] in s.tree ==> (dir + [name])[|dir|] == name;
    assert forall q | q in s.tree.Keys && |q| == |dir| + 1 && dir <= q :: q == dir + [q[|dir|]];
    names
  }

  /** What has been recorded so far is true of the tree. */
  ghost predicate Promising(s: Store, sofar: Snapshot) {
    WellFormed(s) && Within(sofar, Truth(s))
  }

  /** What a failure says of a tree that did not move. */
  ghost predicate Amiss(s: Store, path: Path, e: Failure)
    requires WellFormed(s)
  {
    match e
    case StaleRead => false
    case Missing => path !in s.tree
    case UnexpectedSession => exists p <- s.tree :: IsFile(At(s, p).meta) && UnexpectedSessionFile(p)
    case InvalidEntry =>
      exists p <- s.tree :: !IsFile(At(s, p).meta) && !(IsDirectory(At(s, p).meta) && |p| <= MAX_DEPTH)
    case UnexpectedRoot => exists p <- s.tree :: |p| == 1 && p[0] !in TOP_LEVEL
    case OverLimit => Total(Truth(s), false) > MAX_FILES || Total(Truth(s), true) > MAX_BYTES
    case MissingRequired => !HasRequired(Truth(s))
  }

  /** A tree of which a failure is right is not one the guard serves. */
  lemma {:induction false} AmissIsRefused(s: Store, e: Failure)
    requires WellFormed(s) && Amiss(s, [], e)
    ensures !Acceptable(s)
  {
    hide Total;
    match e
    case UnexpectedSession =>
      var p :| p in s.tree && IsFile(At(s, p).meta) && UnexpectedSessionFile(p);
      assert !Admitted(p, Truth(s)[p]);
    case InvalidEntry =>
      var p :| p in s.tree && !IsFile(At(s, p).meta) && !(IsDirectory(At(s, p).meta) && |p| <= MAX_DEPTH);
      assert !Admitted(p, Truth(s)[p]);
    case UnexpectedRoot =>
      var p :| p in s.tree && |p| == 1 && p[0] !in TOP_LEVEL;
      assert !Admitted(p, Truth(s)[p]);
    case _ =>
  }

  /** A pass that fails while nothing moves names what is wrong with the tree. */
  ghost predicate Hopeless(w: World, from: nat, to: nat, sofar: Snapshot, path: Path, e: Failure) {
    Frozen(w, from, to) && Promising(w(from), sofar) ==> Amiss(w(from), path, e)
  }

  /** Whatever is true of an unchanging tree at one instant is true of it at another. */
  lemma {:induction false} FrozenAgrees(w: World, from: nat, to: nat, t: nat)
    requires Frozen(w, from, to) && from <= t <= to && WellFormed(w(from)) && WellFormed(w(t))
    ensures Truth(w(t)) == Truth(w(from)) && (Acceptable(w(t)) <==> Acceptable(w(from)))
  {
    assert Truth(w(t)) == Truth(w(from));
  }

  lemma {:induction false} AmissAgrees(w: World, from: nat, to: nat, t: nat, path: Path, e: Failure)
    requires Frozen(w, from, to) && from <= t <= to && WellFormed(w(from)) && WellFormed(w(t))
    ensures Amiss(w(t), path, e) <==> Amiss(w(from), path, e)
  {
    assert Truth(w(t)) == Truth(w(from));
  }

  lemma {:induction false} HopelessEarlier(w: World, earlier: nat, from: nat, to: nat, sofar: Snapshot, path: Path,
                                           sofar': Snapshot, path': Path, e: Failure)
    requires earlier <= from <= to && Hopeless(w, from, to, sofar', path', e)
    requires Frozen(w, earlier, to) && Promising(w(earlier), sofar) ==> Promising(w(from), sofar')
    requires path == path' || (path' in w(earlier).tree && path in w(earlier).tree)
    ensures Hopeless(w, earlier, to, sofar, path, e)
  {
    hide Total, HasRequired, Truth;
    if Frozen(w, earlier, to) && Promising(w(earlier), sofar) {
      AmissAgrees(w, earlier, to, from, path', e);
      forall t: nat | from <= t <= to
        ensures w(t).tree == w(from).tree && w(t).inodes == w(from).inodes
      {
        assert w(t).tree == w(earlier).tree && w(t).inodes == w(earlier).inodes;
      }
    }
  }

  lemma {:induction false} EntryIsHopeless(w: World, path: Path, meta: Meta, name: string, before: Snapshot,
                                           spansBefore: map<Path, Span>, looked: nat, listed: nat, mid: nat, to: nat,
                                           done: set<string>, s: Snapshot, spans: map<Path, Span>, e: Failure)
    requires looked <= listed <= mid <= to
    requires Shows(w(looked), path, meta) && IsDirectory(meta)
    requires Partial(w, path, before, spansBefore, looked, mid, done, s, spans) && IsRoot(path, meta, looked, s, spans)
    requires Listed(w, looked, listed, path, name, true)
    requires Hopeless(w, mid, to, s, path + [name], e)
    ensures Hopeless(w, looked, to, before, path, e)
  {
    hide Total, HasRequired;
    if Frozen(w, looked, to) && Promising(w(looked), before) {
      assert WellFormed(w(mid)) && WellFormed(w(looked));
      FrozenAgrees(w, looked, to, mid);
      ListedWhileFrozen(w, looked, to, looked, listed, path, name, true);
      DirectoryIsNotFile(meta);
      forall p <- s
        ensures p in Truth(w(mid)) && Truth(w(mid))[p] == s[p]
      {
        assert Kept(p, before, spansBefore, s, spans) && Below(w, p, path, before, looked, mid, done, s, spans);
        if p !in before && p != path {
          assert Frozen(w, looked, mid);
          ObservedIsTrue(w, s, spans, p, looked, mid);
        }
      }
      HopelessEarlier(w, looked, mid, to, before, path, s, path + [name], e);
    }
  }

  /** An entry that goes away or changes its metadata was not looked at while nothing moved. */
  lemma {:induction false} MovedIsHopeless(w: World, from: nat, a: nat, b: nat, to: nat, sofar: Snapshot, path: Path,
                                           e: Failure)
    requires from <= a <= b <= to
    requires (path !in w(b).tree && e.Missing?)
      || (path in w(a).tree && (path !in w(b).tree || At(w(a), path) != At(w(b), path)))
    ensures Hopeless(w, from, to, sofar, path, e)
  {
    assert WellFormed(w(a)) && WellFormed(w(b));
  }

  lemma {:induction false} RefusedIsHopeless(w: World, from: nat, to: nat, sofar: Snapshot, path: Path, meta: Meta)
    requires from <= to && Shows(w(to), path, meta)
    requires (IsFile(meta) && UnexpectedSessionFile(path))
      || (!IsFile(meta) && (!IsDirectory(meta) || |path| > MAX_DEPTH))
    ensures Hopeless(w, from, to, sofar, path, if IsFile(meta) then UnexpectedSession else InvalidEntry)
  {
    if Frozen(w, from, to) && Promising(w(from), sofar) {
      assert path in w(from).tree && At(w(from), path).meta == meta;
    }
  }

  lemma {:induction false} BudgetSpent(w: World, from: nat, to: nat, sofar: Snapshot, path: Path)
    requires from <= to && path !in sofar
    requires Frozen(w, from, to) && Promising(w(from), sofar) ==>
      path in w(from).tree && IsFile(At(w(from), path).meta)
      && (Total(sofar, false) + 1 > MAX_FILES || Total(sofar, true) + At(w(from), path).meta.size > MAX_BYTES)
    ensures Hopeless(w, from, to, sofar, path, OverLimit)
  {
    if Frozen(w, from, to) && Promising(w(from), sofar) {
      var f := Truth(w(from))[path];
      TotalInsert(sofar, path, f, false);
      TotalInsert(sofar, path, f, true);
      TotalWithin(sofar[path := f], Truth(w(from)), false);
      TotalWithin(sofar[path := f], Truth(w(from)), true);
    }
  }

  lemma {:induction false} ObservedIsTrue(w: World, s: Snapshot, spans: map<Path, Span>, p: Path, from: nat, to: nat)
    requires Observed(w, s, spans, p) && from <= spans[p].first && spans[p].last <= to && Frozen(w, from, to)
    requires WellFormed(w(from))
    ensures p in w(from).tree && Truth(w(from))[p] == s[p]
  {
    DirectoryIsNotFile(s[p].meta);
  }

  // --- The guard --------------------------------------------------------------------------------------

  /** What fingerprintTree returns is one pass; while nothing moves it is the truth about the tree, and it
      succeeds exactly on the trees the guard serves. */
  method FingerprintTree(world: World, start: nat)
    returns (r: Option<Snapshot>, e: Option<Failure>, end: nat, ghost spans: map<Path, Span>)
    ensures start <= end && (r.Some? <==> e.None?)
    ensures r.Some? ==> Pass(world, r.value, spans, start, end) && HasRequired(r.value)
    ensures Frozen(world, start, end) ==>
      && WellFormed(world(start))
      && (r.Some? <==> Acceptable(world(start)))
      && (e.Some? ==> Amiss(world(start), [], e.value))
      && (r.Some? ==> r.value == Truth(world(start)))
  {
    var pass := new Fingerprinter(world, start);
    assert WellFormed(world(start));
    var failed := pass.Record([]);
    end, spans := pass.now, pass.spans;
    if failed.Some? {
      if Frozen(world, start, end) { AmissIsRefused(world(start), failed.value); }
      return None, failed, end, spans;
    }
    RecordedIsPass(world, start, end, pass.result, spans);
    if !HasRequired(pass.result) {
      if Frozen(world, start, end) { PassIsTruth(world, start, end, pass.result, spans); }
      return None, Some(MissingRequired), end, spans;
    }
    if Frozen(world, start, end) { PassIsTruth(world, start, end, pass.result, spans); }
    return Some(pass.result), None, end, spans;
  }

  lemma {:induction false} RecordedIsPass(w: World, from: nat, to: nat, s: Snapshot, spans: map<Path, Span>)
    requires Recorded(w, [], map[], map[], from, to, s, spans)
    ensures Pass(w, s, spans, from, to)
  {
    forall p
      ensures Tracked(w, s, spans, from, to, p)
    {
      assert Added(w, p, [], map[], from, to, s, spans);
    }
  }

  /** On a tree that does not move, a pass records every entry, and only what is true. */
  lemma {:induction false} PassIsTruth(w: World, from: nat, to: nat, s: Snapshot, spans: map<Path, Span>)
    requires WellFormed(w(from)) && Frozen(w, from, to) && Pass(w, s, spans, from, to)
    ensures s == Truth(w(from)) && forall p <- s :: Admitted(p, s[p])
  {
    forall p
      ensures p in s ==> p in w(from).tree && Truth(w(from))[p] == s[p] && Admitted(p, s[p])
      ensures p in w(from).tree ==> p in s
    {
      if p in s {
        assert Tracked(w, s, spans, from, to, p);
        ObservedIsTrue(w, s, spans, p, from, to);
      }
      if p in w(from).tree { FoundWhileFrozen(w, from, to, s, spans, p); }
    }
  }

  lemma {:induction false} FoundWhileFrozen(w: World, from: nat, to: nat, s: Snapshot, spans: map<Path, Span>, p: Path)
    requires WellFormed(w(from)) && Frozen(w, from, to) && Pass(w, s, spans, from, to)
    requires p in w(from).tree
    ensures p in s
    decreases |p|
  {
    if p != [] {
      var dir, name := Parent(p), p[|p| - 1];
      assert Rooted(w(from), p);
      FoundWhileFrozen(w, from, to, s, spans, dir);
      assert Tracked(w, s, spans, from, to, dir);
      ObservedIsTrue(w, s, spans, dir, from, to);
      DirectoryIsNotFile(s[dir].meta);
      assert Lists(w, s, spans[dir], dir, name);
      ListedWhileFrozen(w, from, to, spans[dir].first, spans[dir].last, dir, name, dir + [name] in s);
      assert dir + [name] == p;
    }
  }

  /** What the guarded callback made of the instants it looked at. */
  datatype ReadResult<T> = Value(value: T) | Failed(reason: string)

  datatype Outcome<T> = Delivered(result: ReadResult<T>) | Stale | NotFingerprinted(failure: Failure)

  function Repeat<V>(v: V, n: nat): (s: seq<V>)
    ensures |s| == n && forall i | 0 <= i < n :: s[i] == v
  {
    seq(n, _ => v)
  }

  /** guardDisposablePaginatedRead. The callback looks at the tree any number of times, with other
      processes running in between; `from` and `to` enclose every look. */
  method GuardedRead<T>(world: World, start: nat, read: seq<map<Path, Node>> -> ReadResult<T>)
    returns (r: Outcome<T>, end: nat, ghost from: nat, ghost to: nat)
    ensures start <= from <= to <= end && WellFormed(world(from))
    // Whatever is delivered, a failure included, was computed on a single tree that never moved meanwhile.
    ensures r.Delivered? ==>
      && (forall t: nat | from <= t <= to :: WellFormed(world(t)) && View(world(t)) == View(world(from)))
      && exists looks: nat :: r.result == read(Repeat(View(world(from)), looks))
    // Any instant of the read at which the tree differs is reported, even when the read itself failed.
    ensures (exists t: nat :: from <= t <= to && WellFormed(world(t)) && View(world(t)) != View(world(from))) ==>
      r.Stale?
    // A tree nobody touches is served exactly when it is acceptable, and never reported stale.
    ensures Frozen(world, start, end) ==>
      && WellFormed(world(start)) && (r.Delivered? <==> Acceptable(world(start))) && !r.Stale?
      && (r.NotFingerprinted? ==> Amiss(world(start), [], r.failure))
  {
    hide View, Acceptable, Pass, Amiss;
    var before, failure, t0, one := FingerprintTree(world, start);
    from, to, end := t0, t0, t0;
    assert WellFormed(world(from));
    if before.None? {
      return NotFingerprinted(failure.value), end, from, to;
    }
    var now := t0;
    var looks: seq<map<Path, Node>> := [];
    ghost var times: seq<nat> := [];
    var more: bool :| true;
    var budget: nat :| true;
    while more && budget > 0
      invariant from <= now && |times| == |looks|
      invariant forall i | 0 <= i < |looks| ::
        from <= times[i] <= now && WellFormed(world(times[i])) && looks[i] == View(world(times[i]))
      decreases budget
    {
      var pause: nat :| true;
      now := now + pause;
      assert WellFormed(world(now));
      looks, times := looks + [Looked(world(now))], times + [now];
      more :| true;
      budget := budget - 1;
    }
    var result := read(looks);
    to := now;
    var after, failed, t1, two := FingerprintTree(world, now);
    end := t1;
    if Frozen(world, start, end) {
      FrozenAgrees(world, start, end, now);
      FrozenFrom(world, start, t0, now, end);
    }
    if after.None? || before != after {
      return Stale, end, from, to;
    }
    Unmoved(world, before.value, one, two, start, from, to, end);
    assert looks == Repeat(View(world(from)), |looks|);
    return Delivered(result), end, from, to;
  }

  lemma {:induction false} Unmoved(w: World, s: Snapshot, one: map<Path, Span>, two: map<Path, Span>,
                                   a: nat, b: nat, c: nat, d: nat)
    requires Pass(w, s, one, a, b) && Pass(w, s, two, c, d) && b <= c
    ensures WellFormed(w(b))
    ensures forall t: nat | b <= t <= c :: WellFormed(w(t)) && View(w(t)) == View(w(b))
  {
    assert WellFormed(w(b)) && [] in s;
    assert Agreed(w, s, one, two, b, c);
    hide Agreed, Pass, View;
    forall t: nat | b <= t <= c
      ensures WellFormed(w(t)) && View(w(t)) == View(w(b))
    {
      DoubleCollect(w, s, one, two, b, c, t);
    }
  }

  lemma {:induction false} FrozenFrom(w: World, start: nat, t0: nat, now: nat, end: nat)
    requires Frozen(w, start, end) && start <= t0 <= now <= end
    ensures Frozen(w, start, t0) && Frozen(w, now, end)
  {
    forall t: nat | now <= t <= end
      ensures w(t).tree == w(now).tree && w(t).inodes == w(now).inodes
    {
      assert w(t).tree == w(start).tree && w(now).tree == w(start).tree;
    }
  }

  function Looked(s: Store): (v: map<Path, Node>)
    requires WellFormed(s)
    ensures v == View(s)
  {
    map p | p in s.tree :: At(s, p)
  }
}
