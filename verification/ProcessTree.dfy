/** process_tree in experiments/host-action-acceptance.py: the processes started below one, out of a table of
    parents read from /proc entry by entry, so that it may be incomplete and may even hold cycles. */
module ProcessTree {
  datatype Record = Record(parent: int, startTicks: string, state: string)

  type Table = map<int, Record>

  /** `pid` is `root` itself, or its parent descends from the root in one step less. */
  predicate Descends(table: Table, root: int, pid: int, steps: nat)
    decreases steps
  {
    if steps == 0 then pid == root
    else pid in table && Descends(table, root, table[pid].parent, steps - 1)
  }

  ghost predicate Descendant(table: Table, root: int, pid: int) {
    exists steps: nat :: Descends(table, root, pid, steps)
  }

  predicate Increasing(s: seq<int>) {
    forall i, j | 0 <= i < j < |s| :: s[i] < s[j]
  }

  function Insert(pid: int, sorted: seq<int>): (r: seq<int>)
    requires Increasing(sorted) && pid !in sorted
    ensures Increasing(r) && forall p :: p in r <==> p == pid || p in sorted
  {
    if sorted == [] then [pid]
    else if pid < sorted[0] then [pid] + sorted
    else
      var rest := Insert(pid, sorted[1..]);
      assert forall i | 0 <= i < |rest| :: rest[i] in rest && sorted[0] < rest[i];
      [sorted[0]] + rest
  }

  lemma {:induction false} HasMember(s: set<int>)
    requires s != {}
    ensures exists p :: p in s
  {
    if forall p :: p !in s {
      assert false;
    }
  }

  method Sorted(pids: set<int>) returns (s: seq<int>)
    ensures Increasing(s) && forall p :: p in s <==> p in pids
  {
    var left := pids;
    s := [];
    while left != {}
      invariant left <= pids && Increasing(s) && forall p :: p in s <==> p in pids && p !in left
    {
      HasMember(left);
      var p :| p in left;
      left := left - {p};
      s := Insert(p, s);
    }
  }

  lemma {:induction false} ClosedHoldsDescendants(table: Table, root: int, owned: set<int>, pid: int, steps: nat)
    requires root in owned && forall p <- table :: table[p].parent in owned ==> p in owned
    requires Descends(table, root, pid, steps)
    ensures pid in owned
    decreases steps
  {
    if steps > 0 {
      ClosedHoldsDescendants(table, root, owned, table[pid].parent, steps - 1);
    }
  }

  lemma {:induction false} ChildDescends(table: Table, root: int, pid: int)
    requires pid in table && Descendant(table, root, table[pid].parent)
    ensures Descendant(table, root, pid)
  {
    var steps: nat :| Descends(table, root, table[pid].parent, steps);
    assert Descends(table, root, pid, steps + 1);
  }

  /** The loop to the fixpoint: exactly the recorded descendants of the root, without the root itself, each once and
      in the order of their numbers. It ends for every table, cyclic ones included. */
  method Below(table: Table, root: int) returns (pids: seq<int>)
    ensures Increasing(pids)
    ensures forall pid :: pid in pids <==> pid in table && pid != root && Descendant(table, root, pid)
  {
    var owned := {root};
    assert Descends(table, root, root, 0);
    while true
      invariant root in owned && owned <= table.Keys + {root}
      invariant forall pid <- owned :: Descendant(table, root, pid)
      decreases |table.Keys + {root} - owned|
    {
      var children := set pid | pid in table && table[pid].parent in owned;
      forall pid <- children
        ensures Descendant(table, root, pid)
      {
        ChildDescends(table, root, pid);
      }
      if children <= owned {
        break;
      }
      ghost var rest := table.Keys + {root} - owned;
      HasMember(children - owned);
      var more :| more in children - owned;
      owned := owned + children;
      Smaller(rest, table.Keys + {root} - owned, more);
    }
    forall pid | Descendant(table, root, pid)
      ensures pid in owned
    {
      var steps: nat :| Descends(table, root, pid, steps);
      ClosedHoldsDescendants(table, root, owned, pid, steps);
    }
    pids := Sorted(set pid | pid in owned && pid != root && pid in table);
  }

  lemma {:induction false} Smaller(large: set<int>, small: set<int>, x: int)
    requires small <= large && x in large && x !in small
    ensures |small| < |large|
  {
    assert small <= large - {x};
    Subset(small, large - {x});
  }

  lemma {:induction false} Subset(small: set<int>, large: set<int>)
    requires small <= large
    ensures |small| <= |large|
    decreases |small|
  {
    if small != {} {
      HasMember(small);
      var x :| x in small;
      Subset(small - {x}, large - {x});
    }
  }
}
