/** The file system a guarded read watches, as a run of states other processes may change between any two
    observations. Names lead to inodes; a directory entry that changes stamps its directory, and an inode
    that changes stamps itself, with a time of change that was never used before. A whole subtree may be
    moved in or out at once, so an entry deep inside it can come back carrying the stamp it left with. */
module WatchedStore {
  type Path = seq<string>  // components below the watched root; [] is the root itself

  datatype Meta = Meta(device: nat, inode: nat, mode: nat, size: nat, modified: nat, changed: nat)

  datatype Node = Node(meta: Meta, content: seq<bv8>)

  /** `tree` binds each name to an inode's identity; an inode outlives its last name, as an open file does.
      `next` is a time no stamp has reached. */
  datatype Store = Store(tree: map<Path, nat>, inodes: map<nat, Node>, next: nat)

  /** The file type bits of a mode, as S_ISREG and S_ISDIR read them. */
  predicate IsFile(meta: Meta) {
    meta.mode / 4096 % 16 == 8
  }

  predicate IsDirectory(meta: Meta) {
    meta.mode / 4096 % 16 == 4
  }

  /** The four bits of a mode from 4096 up tell its type: 0100000 is a file's and 0040000 a directory's, in octal. */
  lemma {:induction false} TypesExactly(meta: Meta, above: nat, kind: nat, rest: nat)
    requires meta.mode == 65536 * above + 4096 * kind + rest && kind < 16 && rest < 4096
    ensures IsFile(meta) <==> 4096 * kind == 32768
    ensures IsDirectory(meta) <==> 4096 * kind == 16384
  {
    assert meta.mode / 4096 == 16 * above + kind;
  }

  function Parent(p: Path): Path
    requires p != []
  {
    p[..|p| - 1]
  }

  /** A name leads to an inode, and lies in a directory that is itself named. */
  ghost predicate Rooted(s: Store, p: Path) {
    p in s.tree ==>
      && s.tree[p] in s.inodes
      && (p != [] ==> Parent(p) in s.tree && s.tree[Parent(p)] in s.inodes
                      && IsDirectory(s.inodes[s.tree[Parent(p)]].meta))
  }

  ghost predicate WellFormed(s: Store) {
    && (forall p :: Rooted(s, p))
    && (forall p <- s.tree :: s.tree[p] in s.inodes)
    && (forall i <- s.inodes :: s.inodes[i].meta.changed < s.next)
    && (forall i <- s.inodes :: IsFile(s.inodes[i].meta) ==> |s.inodes[i].content| == s.inodes[i].meta.size)
  }

  ghost predicate SameBinding(a: Store, b: Store, p: Path) {
    (p in a.tree <==> p in b.tree) && (p in a.tree ==> a.tree[p] == b.tree[p])
  }

  /** An entry that appears, leaves or is replaced stamps the directory holding it. */
  ghost predicate EntryStamped(a: Store, b: Store, p: Path)
    requires WellFormed(b)
  {
    p != [] && !SameBinding(a, b, p) && Parent(p) in a.tree && SameBinding(a, b, Parent(p))
    ==> a.next <= At(b, Parent(p)).meta.changed
  }

  /** What one step of the other processes must do to the stamps. */
  ghost predicate Step(a: Store, b: Store)
    requires WellFormed(b)
  {
    && a.next <= b.next
    && a.inodes.Keys <= b.inodes.Keys
    && (forall i <- a.inodes :: a.inodes[i] != b.inodes[i] ==> a.next <= b.inodes[i].meta.changed)
    && (!SameBinding(a, b, []) && [] in b.tree ==> a.next <= At(b, []).meta.changed)
    && (forall p :: EntryStamped(a, b, p))
  }

  ghost predicate StepAt(w: nat -> Store, t: nat) {
    WellFormed(w(t + 1)) && Step(w(t), w(t + 1))
  }

  ghost predicate Lawful(w: nat -> Store) {
    && (forall t: nat :: WellFormed(w(t)))
    && (forall t: nat :: StepAt(w, t))
  }

  /** A run: the store at every instant, each step stamping what it changes. */
  type World = w: nat -> Store | Lawful(w) ghost witness _ => Store(map[], map[], 0)

  function At(s: Store, p: Path): Node
    requires p in s.tree && s.tree[p] in s.inodes
  {
    s.inodes[s.tree[p]]
  }

  /** The tree as a reader sees it: every name with its metadata and bytes. */
  ghost function View(s: Store): map<Path, Node>
    requires WellFormed(s)
  {
    map p | p in s.tree :: At(s, p)
  }

  ghost predicate Frozen(w: World, from: nat, to: nat) {
    forall t: nat | from <= t <= to :: w(t).tree == w(from).tree && w(t).inodes == w(from).inodes
  }

  // --- Stillness: an old stamp proves that nothing happened since ---------------------------------

  lemma {:induction false} ClockAdvances(w: World, s: nat, t: nat)
    requires s <= t
    ensures w(s).next <= w(t).next && w(s).inodes.Keys <= w(t).inodes.Keys
    decreases t - s
  {
    if s < t {
      assert StepAt(w, t - 1);
      ClockAdvances(w, s, t - 1);
    }
  }

  lemma {:induction false} InodeStill(w: World, s: nat, t: nat, i: nat)
    requires s <= t && i in w(s).inodes && i in w(t).inodes
    requires w(t).inodes[i].meta.changed < w(s).next
    ensures forall u: nat | s <= u <= t :: i in w(u).inodes && w(u).inodes[i] == w(s).inodes[i]
    decreases t - s
  {
    if s < t {
      ClockAdvances(w, s, s + 1);
      assert StepAt(w, s);
      InodeStill(w, s + 1, t, i);
    }
  }

  /** `p` names the same inode, with the same metadata and bytes, at every instant. */
  ghost predicate Still(w: World, from: nat, to: nat, p: Path) {
    && p in w(from).tree
    && w(from).tree[p] in w(from).inodes
    && forall t: nat | from <= t <= to ::
         p in w(t).tree && w(t).tree[p] == w(from).tree[p]
         && w(t).tree[p] in w(t).inodes && At(w(t), p) == At(w(from), p)
  }

  lemma {:induction false} StepKeepsRoot(a: Store, b: Store)
    requires WellFormed(a) && WellFormed(b) && Step(a, b)
    requires [] in b.tree && At(b, []).meta.changed < a.next
    ensures SameBinding(a, b, []) && [] in a.tree && At(a, []) == At(b, [])
  {
  }

  lemma {:induction false} StillSince(w: World, s: nat, t: nat, p: Path)
    requires s < t && Still(w, s + 1, t, p)
    requires p in w(s).tree && SameBinding(w(s), w(s + 1), p) && At(w(s), p) == At(w(s + 1), p)
    ensures Still(w, s, t, p)
  {
    forall u: nat | s <= u <= t
      ensures p in w(u).tree && w(u).tree[p] == w(s).tree[p]
              && w(u).tree[p] in w(u).inodes && At(w(u), p) == At(w(s), p)
    {
      if u > s { assert w(u).tree[p] == w(s + 1).tree[p]; }
    }
  }

  lemma {:induction false} RootStill(w: World, s: nat, t: nat)
    requires s <= t && [] in w(t).tree && At(w(t), []).meta.changed < w(s).next
    ensures Still(w, s, t, [])
    decreases t - s
  {
    if s < t {
      ClockAdvances(w, s, s + 1);
      RootStill(w, s + 1, t);
      assert StepAt(w, s);
      StepKeepsRoot(w(s), w(s + 1));
      StillSince(w, s, t, []);
    }
  }

  lemma {:induction false} StepKeepsEntry(w: World, s: nat, t: nat, to: nat, p: Path)
    requires s <= t < to && p != [] && Still(w, s, to, Parent(p))
    ensures SameBinding(w(t), w(t + 1), p)
  {
    var a, b := w(t), w(t + 1);
    ClockAdvances(w, s, t);
    assert StepAt(w, t) && WellFormed(w(s));
    assert EntryStamped(a, b, p);
  }

  /** While a directory is still, no entry appears in it, leaves it or is replaced. */
  lemma {:induction false} EntriesStill(w: World, s: nat, t: nat, p: Path)
    requires s <= t && p != [] && Still(w, s, t, Parent(p))
    ensures forall u: nat | s <= u <= t :: SameBinding(w(s), w(u), p)
  {
    forall u: nat | s <= u <= t
      ensures SameBinding(w(s), w(u), p)
    {
      var v := s;
      while v < u
        invariant s <= v <= u && SameBinding(w(s), w(v), p)
      {
        StepKeepsEntry(w, s, v, t, p);
        v := v + 1;
      }
    }
  }

  lemma {:induction false} ChildStill(w: World, s: nat, t: nat, p: Path)
    requires s <= t && p != [] && Still(w, s, t, Parent(p))
    requires p in w(t).tree && At(w(t), p).meta.changed < w(s).next
    ensures Still(w, s, t, p)
  {
    EntriesStill(w, s, t, p);
    assert SameBinding(w(s), w(t), p);
    assert WellFormed(w(s)) && WellFormed(w(t));
    InodeStill(w, s, t, w(t).tree[p]);
    forall u: nat | s <= u <= t
      ensures p in w(u).tree && w(u).tree[p] == w(s).tree[p]
              && w(u).tree[p] in w(u).inodes && At(w(u), p) == At(w(s), p)
    {
      assert SameBinding(w(s), w(u), p);
    }
  }
}
