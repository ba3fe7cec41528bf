/** How `LogglyHandler.flush` groups a batch (restapi_logging_handler/loggly_handler.py):
    the nested dictionary `pids` maps each process id to a dictionary from
    thread id to the list of that pair's serialized records. Python dictionaries
    keep insertion order, so both levels are modelled as sequences of entries
    in the order their keys were first seen. */
module Grouping {
  import opened Serialization

  /** One batch record once `flush` has popped its ids and dumped the rest. */
  datatype Entry = Entry(pid: Value, tid: Value, data: string)

  /** `pids[pid][tid]`: one thread's list of serialized records. */
  datatype TidGroup = TidGroup(tid: Value, data: seq<string>)

  /** `pids[pid]`: one process's dictionary of thread groups. */
  datatype PidGroup = PidGroup(pid: Value, tids: seq<TidGroup>)

  /** One (pid, tid) group, as the two nested `for` loops visit it. */
  datatype Slot = Slot(pid: Value, tid: Value, data: seq<string>)

  /** `p[tid].append(data)` when `tid in p`, else `p[tid] = [data]`. */
  function InsertTid(ts: seq<TidGroup>, tid: Value, x: string): seq<TidGroup>
  {
    if ts == [] then [TidGroup(tid, [x])]
    else if ts[0].tid == tid then [TidGroup(tid, ts[0].data + [x])] + ts[1..]
    else [ts[0]] + InsertTid(ts[1..], tid, x)
  }

  /** One iteration of the grouping loop: add a record under `pids[pid][tid]`,
      creating `pids[pid] = {tid: [data]}` when the process is new. */
  function Insert(g: seq<PidGroup>, e: Entry): seq<PidGroup>
  {
    if g == [] then [PidGroup(e.pid, [TidGroup(e.tid, [e.data])])]
    else if g[0].pid == e.pid then [PidGroup(e.pid, InsertTid(g[0].tids, e.tid, e.data))] + g[1..]
    else [g[0]] + Insert(g[1..], e)
  }

  /** The `pids` dictionary after the grouping loop has run over `es`. */
  function Grouped(es: seq<Entry>): seq<PidGroup>
  {
    if es == [] then [] else Insert(Grouped(es[..|es| - 1]), es[|es| - 1])
  }

  /** The groups of one process, in the inner loop's order. */
  function PlanTids(pid: Value, ts: seq<TidGroup>): seq<Slot>
  {
    seq(|ts|, i requires 0 <= i < |ts| => Slot(pid, ts[i].tid, ts[i].data))
  }

  /** All groups, in the order the nested loops visit (and POST) them. */
  function Plan(g: seq<PidGroup>): seq<Slot>
  {
    if g == [] then [] else PlanTids(g[0].pid, g[0].tids) + Plan(g[1..])
  }

  /** The process ids that have an entry in `g`. */
  function Pids(g: seq<PidGroup>): set<Value>
  {
    set i | 0 <= i < |g| :: g[i].pid
  }

  /** The data of the records of `es` with the given ids, in batch order. */
  function Filter(es: seq<Entry>, pid: Value, tid: Value): seq<string>
  {
    if es == [] then []
    else
      var last := es[|es| - 1];
      Filter(es[..|es| - 1], pid, tid) + (if last.pid == pid && last.tid == tid then [last.data] else [])
  }

  /** The serialized records of a batch, in batch order. */
  function Datas(es: seq<Entry>): seq<string>
  {
    seq(|es|, i requires 0 <= i < |es| => es[i].data)
  }

  /** All records of all groups, in visiting order. */
  function Flatten(slots: seq<Slot>): seq<string>
  {
    if slots == [] then [] else slots[0].data + Flatten(slots[1..])
  }

  /** No thread id occurs twice in one process's dictionary. */
  ghost predicate TidsDistinct(ts: seq<TidGroup>)
  {
    forall i, j :: 0 <= i < j < |ts| ==> ts[i].tid != ts[j].tid
  }

  /** No process id occurs twice in `pids`. */
  ghost predicate PidsDistinct(g: seq<PidGroup>)
  {
    forall i, j :: 0 <= i < j < |g| ==> g[i].pid != g[j].pid
  }

  /** Dictionary keys are unique at both levels. */
  ghost predicate WellFormed(g: seq<PidGroup>)
  {
    PidsDistinct(g) && forall i :: 0 <= i < |g| ==> TidsDistinct(g[i].tids)
  }

  /** No (pid, tid) pair is visited twice. */
  ghost predicate KeysDistinct(slots: seq<Slot>)
  {
    forall i, j :: 0 <= i < j < |slots| ==> slots[i].pid != slots[j].pid || slots[i].tid != slots[j].tid
  }

  /** Whether some group of `slots` has the given ids. */
  ghost predicate HasKey(slots: seq<Slot>, pid: Value, tid: Value)
  {
    exists i :: 0 <= i < |slots| && slots[i].pid == pid && slots[i].tid == tid
  }

  /** Each group holds exactly the records of `es` with its ids, in batch order. */
  ghost predicate GroupsMatch(slots: seq<Slot>, es: seq<Entry>)
  {
    forall i :: 0 <= i < |slots| ==> slots[i].data == Filter(es, slots[i].pid, slots[i].tid) && slots[i].data != []
  }

  /** Every record of `es` has a group. */
  ghost predicate Covers(slots: seq<Slot>, es: seq<Entry>)
  {
    forall k :: 0 <= k < |es| ==> HasKey(slots, es[k].pid, es[k].tid)
  }

  /** `slots` is a partition of the batch `es` by (pid, tid): one group per
      distinct pair, each holding exactly that pair's records in batch order,
      together holding every record once. */
  ghost predicate Partitions(slots: seq<Slot>, es: seq<Entry>)
  {
    && KeysDistinct(slots)
    && GroupsMatch(slots, es)
    && Covers(slots, es)
    && multiset(Flatten(slots)) == multiset(Datas(es))
  }

  /** `p[tid].append(data)` either extends the existing group at `k` or adds a
      new group at the end, when no group has the thread id. */
  lemma {:induction false} InsertTidCases(ts: seq<TidGroup>, tid: Value, x: string) returns (found: bool, k: nat)
    ensures found ==> k < |ts| && ts[k].tid == tid
                      && InsertTid(ts, tid, x) == ts[k := TidGroup(tid, ts[k].data + [x])]
    ensures !found ==> (forall i :: 0 <= i < |ts| ==> ts[i].tid != tid)
                       && InsertTid(ts, tid, x) == ts + [TidGroup(tid, [x])]
    decreases |ts|
  {
    if ts == [] {
      found, k := false, 0;
    } else if ts[0].tid == tid {
      found, k := true, 0;
    } else {
      var f, k' := InsertTidCases(ts[1..], tid, x);
      found, k := f, k' + 1;
      var rest := InsertTid(ts[1..], tid, x);
      assert InsertTid(ts, tid, x) == [ts[0]] + rest;
      assert ts == [ts[0]] + ts[1..];
      if f {
        assert ts[1..][k'] == ts[k];
        ConsUpdate(ts[0], ts[1..], k', TidGroup(tid, ts[k].data + [x]));
      } else {
        forall i | 0 <= i < |ts| ensures ts[i].tid != tid {
          if i > 0 { assert ts[i] == ts[1..][i - 1]; }
        }
        ConsAppend(ts[0], ts[1..], TidGroup(tid, [x]));
      }
    }
  }

  /** Updating the tail at `k` is updating the whole sequence at `k + 1`. */
  lemma ConsUpdate<T>(a: T, s: seq<T>, k: nat, v: T)
    requires k < |s|
    ensures [a] + s[k := v] == ([a] + s)[k + 1 := v]
  {
  }

  /** Appending to the tail is appending to the whole sequence. */
  lemma ConsAppend<T>(a: T, s: seq<T>, v: T)
    ensures [a] + (s + [v]) == ([a] + s) + [v]
  {
  }

  /** Adding a record keeps the thread ids of one process distinct. */
  lemma InsertTidDistinct(ts: seq<TidGroup>, tid: Value, x: string)
    requires TidsDistinct(ts)
    ensures TidsDistinct(InsertTid(ts, tid, x))
  {
    var found, k := InsertTidCases(ts, tid, x);
    var t := InsertTid(ts, tid, x);
    if found {
      assert forall i :: 0 <= i < |ts| ==> t[i].tid == ts[i].tid;
    } else {
      assert forall i :: 0 <= i < |ts| ==> t[i] == ts[i];
    }
  }

  lemma PidsCons(p: PidGroup, g: seq<PidGroup>)
    ensures Pids([p] + g) == {p.pid} + Pids(g)
  {
    var g' := [p] + g;
    assert g'[0] == p;
    forall v | v in Pids(g') ensures v in {p.pid} + Pids(g) {
      var i :| 0 <= i < |g'| && g'[i].pid == v;
      if i > 0 { assert g'[i] == g[i - 1]; }
    }
    forall v | v in Pids(g) ensures v in Pids(g') {
      var i :| 0 <= i < |g| && g[i].pid == v;
      assert g'[i + 1] == g[i];
    }
    assert p.pid in Pids(g');
  }

  lemma {:induction false} PlanPids(g: seq<PidGroup>)
    ensures forall i :: 0 <= i < |Plan(g)| ==> Plan(g)[i].pid in Pids(g)
    decreases |g|
  {
    if g != [] {
      PlanPids(g[1..]);
      assert g == [g[0]] + g[1..];
      PidsCons(g[0], g[1..]);
      var head := PlanTids(g[0].pid, g[0].tids);
      forall i | 0 <= i < |Plan(g)| ensures Plan(g)[i].pid in Pids(g) {
        if i < |head| {
          assert Plan(g)[i] == head[i];
        } else {
          assert Plan(g)[i] == Plan(g[1..])[i - |head|];
        }
      }
    }
  }

  /** Insert when the first process of `pids` is the record's own. */
  lemma InsertAtHead(g: seq<PidGroup>, e: Entry) returns (found: bool, k: nat)
    requires WellFormed(g) && g != [] && g[0].pid == e.pid
    ensures WellFormed(Insert(g, e))
    ensures Pids(Insert(g, e)) == Pids(g)
    ensures found ==> k < |Plan(g)| && Plan(g)[k].pid == e.pid && Plan(g)[k].tid == e.tid
                      && Plan(Insert(g, e)) == Plan(g)[k := Slot(e.pid, e.tid, Plan(g)[k].data + [e.data])]
    ensures !found ==> k <= |Plan(g)| && !HasKey(Plan(g), e.pid, e.tid)
                       && Plan(Insert(g, e)) == Plan(g)[..k] + [Slot(e.pid, e.tid, [e.data])] + Plan(g)[k..]
  {
    var ts := g[0].tids;
    var f, j := InsertTidCases(ts, e.tid, e.data);
    var head := PlanTids(e.pid, ts);
    var rest := Plan(g[1..]);
    AtHeadFrame(g, e);
    found, k := f, j;
    if f {
      assert PlanTids(e.pid, InsertTid(ts, e.tid, e.data)) == head[j := Slot(e.pid, e.tid, head[j].data + [e.data])];
    } else {
      assert PlanTids(e.pid, InsertTid(ts, e.tid, e.data)) == head + [Slot(e.pid, e.tid, [e.data])];
      k := |head|;
      assert Plan(g)[..k] == head && Plan(g)[k..] == rest;
      PlanPids(g[1..]);
      assert e.pid !in Pids(g[1..]);
      forall i | 0 <= i < |Plan(g)| ensures Plan(g)[i].pid != e.pid || Plan(g)[i].tid != e.tid {
        if i < |head| {
          assert Plan(g)[i] == head[i];
        } else {
          assert Plan(g)[i] == rest[i - |head|];
        }
      }
    }
  }

  /** Inserting under the first process changes only that process's thread
      groups, and the dictionary stays well formed. */
  lemma AtHeadFrame(g: seq<PidGroup>, e: Entry)
    requires WellFormed(g) && g != [] && g[0].pid == e.pid
    ensures WellFormed(Insert(g, e))
    ensures Pids(Insert(g, e)) == Pids(g)
    ensures Plan(g) == PlanTids(e.pid, g[0].tids) + Plan(g[1..])
    ensures Plan(Insert(g, e)) == PlanTids(e.pid, InsertTid(g[0].tids, e.tid, e.data)) + Plan(g[1..])
  {
    var ts := g[0].tids;
    InsertTidDistinct(ts, e.tid, e.data);
    var rest := Plan(g[1..]);
    var newHead := PidGroup(e.pid, InsertTid(ts, e.tid, e.data));
    var g' := [newHead] + g[1..];
    assert Insert(g, e) == g';
    assert Plan(g') == PlanTids(e.pid, InsertTid(ts, e.tid, e.data)) + rest;
    assert g == [g[0]] + g[1..];
    PidsCons(g[0], g[1..]);
    PidsCons(newHead, g[1..]);
    assert PidsDistinct(g') by {
      forall i, i' | 0 <= i < i' < |g'| ensures g'[i].pid != g'[i'].pid {
        assert g'[i'] == g[i'];
        if i > 0 { assert g'[i] == g[i]; }
      }
    }
    assert forall i :: 0 <= i < |g'| ==> TidsDistinct(g'[i].tids) by {
      forall i | 0 <= i < |g'| ensures TidsDistinct(g'[i].tids) {
        if i > 0 { assert g'[i] == g[i]; }
      }
    }
  }

  lemma ConsWellFormed(p: PidGroup, g: seq<PidGroup>)
    requires WellFormed(g) && TidsDistinct(p.tids) && p.pid !in Pids(g)
    ensures WellFormed([p] + g)
  {
    var g' := [p] + g;
    forall i, j | 0 <= i < j < |g'| ensures g'[i].pid != g'[j].pid {
      assert g'[j] == g[j - 1];
      if i > 0 { assert g'[i] == g[i - 1]; }
    }
    forall i | 0 <= i < |g'| ensures TidsDistinct(g'[i].tids) {
      if i > 0 { assert g'[i] == g[i - 1]; }
    }
  }

  lemma PlanCons(p: PidGroup, g: seq<PidGroup>)
    ensures Plan([p] + g) == PlanTids(p.pid, p.tids) + Plan(g)
  {
    assert ([p] + g)[0] == p;
    assert ([p] + g)[1..] == g;
  }

  lemma NoKeyPrefixed(head: seq<Slot>, rest: seq<Slot>, pid: Value, tid: Value)
    requires forall i :: 0 <= i < |head| ==> head[i].pid != pid
    requires !HasKey(rest, pid, tid)
    ensures !HasKey(head + rest, pid, tid)
  {
    forall i | 0 <= i < |head + rest| ensures (head + rest)[i].pid != pid || (head + rest)[i].tid != tid {
      if i >= |head| { assert (head + rest)[i] == rest[i - |head|]; }
    }
  }

  /** The rest of a well-formed `pids` is well formed and lacks its first key. */
  lemma TailWellFormed(g: seq<PidGroup>)
    requires WellFormed(g) && g != []
    ensures WellFormed(g[1..]) && g[0].pid !in Pids(g[1..])
  {
    forall i, j | 0 <= i < j < |g[1..]| ensures g[1..][i].pid != g[1..][j].pid {
      assert g[1..][i] == g[i + 1] && g[1..][j] == g[j + 1];
    }
    forall i | 0 <= i < |g[1..]| ensures TidsDistinct(g[1..][i].tids) {
      assert g[1..][i] == g[i + 1];
    }
  }

  lemma ShiftUpdate(head: seq<Slot>, rest: seq<Slot>, k': nat, x: Slot)
    requires k' < |rest|
    ensures head + rest[k' := x] == (head + rest)[k' + |head| := x]
  {
  }

  lemma ShiftInsert(head: seq<Slot>, rest: seq<Slot>, k': nat, x: Slot)
    requires k' <= |rest|
    ensures head + (rest[..k'] + [x] + rest[k'..]) == (head + rest)[..k' + |head|] + [x] + (head + rest)[k' + |head|..]
  {
    assert (head + rest)[..k' + |head|] == head + rest[..k'];
    assert (head + rest)[k' + |head|..] == rest[k'..];
  }

  /** Insert when the first process of `pids` is another one. */
  lemma InsertPastHead(g: seq<PidGroup>, e: Entry, f: bool, k': nat) returns (found: bool, k: nat)
    requires WellFormed(g) && g != [] && g[0].pid != e.pid
    requires WellFormed(Insert(g[1..], e))
    requires Pids(Insert(g[1..], e)) == Pids(g[1..]) + {e.pid}
    requires f ==> k' < |Plan(g[1..])| && Plan(g[1..])[k'].pid == e.pid && Plan(g[1..])[k'].tid == e.tid
                   && Plan(Insert(g[1..], e)) == Plan(g[1..])[k' := Slot(e.pid, e.tid, Plan(g[1..])[k'].data + [e.data])]
    requires !f ==> k' <= |Plan(g[1..])| && !HasKey(Plan(g[1..]), e.pid, e.tid)
                    && Plan(Insert(g[1..], e)) == Plan(g[1..])[..k'] + [Slot(e.pid, e.tid, [e.data])] + Plan(g[1..])[k'..]
    ensures WellFormed(Insert(g, e))
    ensures Pids(Insert(g, e)) == Pids(g) + {e.pid}
    ensures found ==> k < |Plan(g)| && Plan(g)[k].pid == e.pid && Plan(g)[k].tid == e.tid
                      && Plan(Insert(g, e)) == Plan(g)[k := Slot(e.pid, e.tid, Plan(g)[k].data + [e.data])]
    ensures !found ==> k <= |Plan(g)| && !HasKey(Plan(g), e.pid, e.tid)
                       && Plan(Insert(g, e)) == Plan(g)[..k] + [Slot(e.pid, e.tid, [e.data])] + Plan(g)[k..]
  {
    var head := PlanTids(g[0].pid, g[0].tids);
    var rest := Plan(g[1..]);
    PastHeadFrame(g, e);
    found, k := f, k' + |head|;
    if f {
      assert (head + rest)[k] == rest[k'];
      ShiftUpdate(head, rest, k', Slot(e.pid, e.tid, rest[k'].data + [e.data]));
    } else {
      ShiftInsert(head, rest, k', Slot(e.pid, e.tid, [e.data]));
      NoKeyPrefixed(head, rest, e.pid, e.tid);
    }
  }

  /** Inserting past the first process keeps that process in front and the
      dictionary well formed. */
  lemma PastHeadFrame(g: seq<PidGroup>, e: Entry)
    requires WellFormed(g) && g != [] && g[0].pid != e.pid
    requires WellFormed(Insert(g[1..], e))
    requires Pids(Insert(g[1..], e)) == Pids(g[1..]) + {e.pid}
    ensures WellFormed(Insert(g, e))
    ensures Pids(Insert(g, e)) == Pids(g) + {e.pid}
    ensures Plan(g) == PlanTids(g[0].pid, g[0].tids) + Plan(g[1..])
    ensures Plan(Insert(g, e)) == PlanTids(g[0].pid, g[0].tids) + Plan(Insert(g[1..], e))
  {
    var g0 := g[0];
    var tail := g[1..];
    var inner := Insert(tail, e);
    assert g == [g0] + tail;
    assert Insert(g, e) == [g0] + inner;
    PlanCons(g0, tail);
    PlanCons(g0, inner);
    PidsCons(g0, inner);
    PidsCons(g0, tail);
    TailWellFormed(g);
    assert TidsDistinct(g0.tids);
    assert g0.pid !in Pids(inner);
    ConsWellFormed(g0, inner);
  }

  /** Adding one record to a well-formed `pids` either appends it to the group
      that already has its ids (at position `k` in visiting order), or inserts a
      new one-record group at position `k`; the dictionary stays well formed. */
  lemma {:induction false} InsertCases(g: seq<PidGroup>, e: Entry) returns (found: bool, k: nat)
    requires WellFormed(g)
    ensures WellFormed(Insert(g, e))
    ensures Pids(Insert(g, e)) == Pids(g) + {e.pid}
    ensures found ==> k < |Plan(g)| && Plan(g)[k].pid == e.pid && Plan(g)[k].tid == e.tid
                      && Plan(Insert(g, e)) == Plan(g)[k := Slot(e.pid, e.tid, Plan(g)[k].data + [e.data])]
    ensures !found ==> k <= |Plan(g)| && !HasKey(Plan(g), e.pid, e.tid)
                       && Plan(Insert(g, e)) == Plan(g)[..k] + [Slot(e.pid, e.tid, [e.data])] + Plan(g)[k..]
    decreases |g|
  {
    if g == [] {
      found, k := false, 0;
      assert Plan(Insert(g, e)) == PlanTids(e.pid, [TidGroup(e.tid, [e.data])]) + Plan([]);
      assert Pids(Insert(g, e)) == {e.pid} by {
        assert Insert(g, e)[0].pid == e.pid;
      }
    } else if g[0].pid == e.pid {
      assert e.pid in Pids(g) by { assert g[0].pid == e.pid; }
      found, k := InsertAtHead(g, e);
    } else {
      TailWellFormed(g);
      var f, k' := InsertCases(g[1..], e);
      found, k := InsertPastHead(g, e, f, k');
    }
  }

  /** Visiting two dictionaries' groups one after the other. */
  lemma {:induction false} PlanAppend(a: seq<PidGroup>, b: seq<PidGroup>)
    ensures Plan(a + b) == Plan(a) + Plan(b)
    decreases |a|
  {
    if a == [] {
      assert a + b == b;
    } else {
      assert (a + b)[0] == a[0];
      assert (a + b)[1..] == a[1..] + b;
      PlanAppend(a[1..], b);
    }
  }

  lemma {:induction false} FlattenAppend(a: seq<Slot>, b: seq<Slot>)
    ensures Flatten(a + b) == Flatten(a) + Flatten(b)
    decreases |a|
  {
    if a == [] {
      assert a + b == b;
    } else {
      assert (a + b)[0] == a[0];
      assert (a + b)[1..] == a[1..] + b;
      FlattenAppend(a[1..], b);
    }
  }

  lemma FilterStep(es: seq<Entry>, e: Entry, pid: Value, tid: Value)
    ensures Filter(es + [e], pid, tid) == Filter(es, pid, tid) + (if e.pid == pid && e.tid == tid then [e.data] else [])
  {
    assert (es + [e])[..|es|] == es;
  }

  lemma {:induction false} FilterEmptyWithoutKey(es: seq<Entry>, pid: Value, tid: Value)
    requires forall k :: 0 <= k < |es| ==> es[k].pid != pid || es[k].tid != tid
    ensures Filter(es, pid, tid) == []
    decreases |es|
  {
    if es != [] {
      FilterEmptyWithoutKey(es[..|es| - 1], pid, tid);
    }
  }

  lemma {:induction false} FlattenSplitAt(slots: seq<Slot>, k: nat)
    requires k < |slots|
    ensures Flatten(slots) == Flatten(slots[..k]) + slots[k].data + Flatten(slots[k + 1..])
    decreases k
  {
    if k == 0 {
      assert slots[..0] == [];
      assert slots[1..] == slots[k + 1..];
    } else {
      FlattenSplitAt(slots[1..], k - 1);
      assert slots[1..][..k - 1] == slots[1..k];
      assert slots[1..][k..] == slots[k + 1..];
      assert slots[..k][1..] == slots[1..k];
      assert slots[..k][0] == slots[0];
    }
  }

  lemma {:induction false} FlattenInsertAt(slots: seq<Slot>, k: nat, s: Slot)
    requires k <= |slots|
    ensures Flatten(slots[..k] + [s] + slots[k..]) == Flatten(slots[..k]) + s.data + Flatten(slots[k..])
    decreases k
  {
    var t := slots[..k] + [s] + slots[k..];
    FlattenSplitAt(t, k);
    assert t[..k] == slots[..k];
    assert t[k + 1..] == slots[k..];
  }

  lemma {:induction false} FlattenPrefix(slots: seq<Slot>, k: nat)
    requires k <= |slots|
    ensures Flatten(slots) == Flatten(slots[..k]) + Flatten(slots[k..])
  {
    assert slots == slots[..k] + slots[k..];
    FlattenAppend(slots[..k], slots[k..]);
  }

  lemma DatasStep(es: seq<Entry>, e: Entry)
    ensures Datas(es + [e]) == Datas(es) + [e.data]
  {
  }

  lemma UpdatedGroupsMatch(slots: seq<Slot>, es: seq<Entry>, e: Entry, k: nat)
    requires GroupsMatch(slots, es) && KeysDistinct(slots)
    requires k < |slots| && slots[k].pid == e.pid && slots[k].tid == e.tid
    ensures GroupsMatch(slots[k := Slot(e.pid, e.tid, slots[k].data + [e.data])], es + [e])
  {
    var t := slots[k := Slot(e.pid, e.tid, slots[k].data + [e.data])];
    forall i | 0 <= i < |t| ensures t[i].data == Filter(es + [e], t[i].pid, t[i].tid) && t[i].data != [] {
      FilterStep(es, e, t[i].pid, t[i].tid);
      if i != k {
        assert t[i] == slots[i];
        assert slots[i].pid != e.pid || slots[i].tid != e.tid by {
          if i < k { assert slots[i].pid != slots[k].pid || slots[i].tid != slots[k].tid; }
          else { assert slots[k].pid != slots[i].pid || slots[k].tid != slots[i].tid; }
        }
      }
    }
  }

  lemma UpdatedCovers(slots: seq<Slot>, es: seq<Entry>, e: Entry, k: nat)
    requires Covers(slots, es)
    requires k < |slots| && slots[k].pid == e.pid && slots[k].tid == e.tid
    ensures Covers(slots[k := Slot(e.pid, e.tid, slots[k].data + [e.data])], es + [e])
  {
    var t := slots[k := Slot(e.pid, e.tid, slots[k].data + [e.data])];
    forall m | 0 <= m < |es + [e]| ensures HasKey(t, (es + [e])[m].pid, (es + [e])[m].tid) {
      if m < |es| {
        assert (es + [e])[m] == es[m];
        assert HasKey(slots, es[m].pid, es[m].tid);
        var i :| 0 <= i < |slots| && slots[i].pid == es[m].pid && slots[i].tid == es[m].tid;
        assert t[i].pid == slots[i].pid && t[i].tid == slots[i].tid;
      } else {
        assert t[k].pid == e.pid && t[k].tid == e.tid;
      }
    }
  }

  lemma UpdatedFlatten(slots: seq<Slot>, k: nat, x: string)
    requires k < |slots|
    ensures multiset(Flatten(slots[k := Slot(slots[k].pid, slots[k].tid, slots[k].data + [x])]))
         == multiset(Flatten(slots)) + multiset{x}
  {
    var t := slots[k := Slot(slots[k].pid, slots[k].tid, slots[k].data + [x])];
    FlattenSplitAt(slots, k);
    FlattenSplitAt(t, k);
    assert t[..k] == slots[..k] && t[k + 1..] == slots[k + 1..];
  }

  /** The partition is kept when a record joins an existing group. */
  lemma PartitionsAppend(slots: seq<Slot>, es: seq<Entry>, e: Entry, k: nat)
    requires Partitions(slots, es)
    requires k < |slots| && slots[k].pid == e.pid && slots[k].tid == e.tid
    ensures Partitions(slots[k := Slot(e.pid, e.tid, slots[k].data + [e.data])], es + [e])
  {
    var t := slots[k := Slot(e.pid, e.tid, slots[k].data + [e.data])];
    assert KeysDistinct(t) by {
      assert forall i :: 0 <= i < |slots| ==> t[i].pid == slots[i].pid && t[i].tid == slots[i].tid;
    }
    UpdatedGroupsMatch(slots, es, e, k);
    UpdatedCovers(slots, es, e, k);
    UpdatedFlatten(slots, k, e.data);
    DatasStep(es, e);
  }

  lemma InsertedShape(slots: seq<Slot>, k: nat, s: Slot, i: nat)
    requires k <= |slots| && i <= |slots|
    ensures (slots[..k] + [s] + slots[k..])[i] == if i < k then slots[i] else if i == k then s else slots[i - 1]
  {
  }

  lemma InsertedKeysDistinct(slots: seq<Slot>, k: nat, s: Slot)
    requires KeysDistinct(slots) && k <= |slots| && !HasKey(slots, s.pid, s.tid)
    ensures KeysDistinct(slots[..k] + [s] + slots[k..])
  {
    var t := slots[..k] + [s] + slots[k..];
    forall i, j | 0 <= i < j < |t| ensures t[i].pid != t[j].pid || t[i].tid != t[j].tid {
      InsertedShape(slots, k, s, i);
      InsertedShape(slots, k, s, j);
    }
  }

  lemma InsertedGroupsMatch(slots: seq<Slot>, es: seq<Entry>, e: Entry, k: nat)
    requires GroupsMatch(slots, es) && Covers(slots, es)
    requires k <= |slots| && !HasKey(slots, e.pid, e.tid)
    ensures GroupsMatch(slots[..k] + [Slot(e.pid, e.tid, [e.data])] + slots[k..], es + [e])
  {
    var s := Slot(e.pid, e.tid, [e.data]);
    var t := slots[..k] + [s] + slots[k..];
    forall m | 0 <= m < |es| ensures es[m].pid != e.pid || es[m].tid != e.tid {
      assert HasKey(slots, es[m].pid, es[m].tid);
    }
    FilterEmptyWithoutKey(es, e.pid, e.tid);
    forall i | 0 <= i < |t| ensures t[i].data == Filter(es + [e], t[i].pid, t[i].tid) && t[i].data != [] {
      InsertedShape(slots, k, s, i);
      FilterStep(es, e, t[i].pid, t[i].tid);
      if i != k {
        var j := if i < k then i else i - 1;
        assert t[i] == slots[j];
        assert slots[j].pid != e.pid || slots[j].tid != e.tid;
      }
    }
  }

  lemma InsertedCovers(slots: seq<Slot>, es: seq<Entry>, e: Entry, k: nat)
    requires Covers(slots, es) && k <= |slots|
    ensures Covers(slots[..k] + [Slot(e.pid, e.tid, [e.data])] + slots[k..], es + [e])
  {
    var s := Slot(e.pid, e.tid, [e.data]);
    var t := slots[..k] + [s] + slots[k..];
    forall m | 0 <= m < |es + [e]| ensures HasKey(t, (es + [e])[m].pid, (es + [e])[m].tid) {
      if m < |es| {
        assert (es + [e])[m] == es[m];
        assert HasKey(slots, es[m].pid, es[m].tid);
        var i :| 0 <= i < |slots| && slots[i].pid == es[m].pid && slots[i].tid == es[m].tid;
        var i' := if i < k then i else i + 1;
        InsertedShape(slots, k, s, i');
      } else {
        InsertedShape(slots, k, s, k);
      }
    }
  }

  /** The partition is kept when a record with new ids opens a new group. */
  lemma PartitionsInsert(slots: seq<Slot>, es: seq<Entry>, e: Entry, k: nat)
    requires Partitions(slots, es)
    requires k <= |slots| && !HasKey(slots, e.pid, e.tid)
    ensures Partitions(slots[..k] + [Slot(e.pid, e.tid, [e.data])] + slots[k..], es + [e])
  {
    var s := Slot(e.pid, e.tid, [e.data]);
    InsertedKeysDistinct(slots, k, s);
    InsertedGroupsMatch(slots, es, e, k);
    InsertedCovers(slots, es, e, k);
    FlattenInsertAt(slots, k, s);
    FlattenPrefix(slots, k);
    DatasStep(es, e);
  }

  /** Grouping a batch partitions it: one group per distinct (pid, tid) pair,
      each group holding exactly that pair's records in batch order, every
      record in exactly one group. */
  lemma {:induction false} GroupedPartitions(es: seq<Entry>)
    ensures WellFormed(Grouped(es))
    ensures Partitions(Plan(Grouped(es)), es)
    decreases |es|
  {
    if es == [] {
      assert Datas(es) == [];
    } else {
      var prefix := es[..|es| - 1];
      var e := es[|es| - 1];
      assert prefix + [e] == es;
      GroupedPartitions(prefix);
      var found, k := InsertCases(Grouped(prefix), e);
      if found {
        PartitionsAppend(Plan(Grouped(prefix)), prefix, e, k);
      } else {
        PartitionsInsert(Plan(Grouped(prefix)), prefix, e, k);
      }
    }
  }

  /** The inner loop's groups so far, one thread further on. */
  lemma PlanTidsStep(pid: Value, ts: seq<TidGroup>, j: nat)
    requires j < |ts|
    ensures PlanTids(pid, ts[..j + 1]) == PlanTids(pid, ts[..j]) + [Slot(pid, ts[j].tid, ts[j].data)]
  {
    assert ts[..j + 1][..j] == ts[..j];
  }

  /** The nested loops' groups so far, one process further on. */
  lemma PlanStep(g: seq<PidGroup>, i: nat)
    requires i < |g|
    ensures Plan(g[..i + 1]) == Plan(g[..i]) + PlanTids(g[i].pid, g[i].tids)
  {
    assert g[..i + 1] == g[..i] + [g[i]];
    PlanAppend(g[..i], [g[i]]);
    assert [g[i]][1..] == [];
  }

  /** One process's groups, cut after its first `j` threads. */
  lemma PlanTidsSplit(pid: Value, ts: seq<TidGroup>, j: nat)
    requires j <= |ts|
    ensures PlanTids(pid, ts) == PlanTids(pid, ts[..j]) + PlanTids(pid, ts[j..])
  {
    var whole := PlanTids(pid, ts);
    var parts := PlanTids(pid, ts[..j]) + PlanTids(pid, ts[j..]);
    assert |whole| == |parts|;
    forall k | 0 <= k < |whole| ensures whole[k] == parts[k] {
      if k >= j {
        assert ts[j..][k - j] == ts[k];
      }
    }
  }

  // ------------------------------------------------------------ visiting order

  /** The process ids of `pids`, in dictionary (insertion) order. */
  function PidOrder(g: seq<PidGroup>): (r: seq<Value>)
    ensures |r| == |g| && forall i :: 0 <= i < |g| ==> r[i] == g[i].pid
  {
    seq(|g|, i requires 0 <= i < |g| => g[i].pid)
  }

  /** The thread ids of one process's dictionary, in insertion order. */
  function TidOrder(ts: seq<TidGroup>): (r: seq<Value>)
    ensures |r| == |ts| && forall i :: 0 <= i < |ts| ==> r[i] == ts[i].tid
  {
    seq(|ts|, i requires 0 <= i < |ts| => ts[i].tid)
  }

  /** The distinct values of `s`, each where it first occurs. */
  function FirstSeen(s: seq<Value>): seq<Value>
  {
    if s == [] then []
    else
      var d := FirstSeen(s[..|s| - 1]);
      if s[|s| - 1] in d then d else d + [s[|s| - 1]]
  }

  /** The process ids of a batch's records, in batch order. */
  function EntryPids(es: seq<Entry>): (r: seq<Value>)
    ensures |r| == |es| && forall i :: 0 <= i < |es| ==> r[i] == es[i].pid
  {
    seq(|es|, i requires 0 <= i < |es| => es[i].pid)
  }

  /** The thread ids of the records of process `pid`, in batch order. */
  function EntryTids(es: seq<Entry>, pid: Value): seq<Value>
  {
    if es == [] then []
    else
      var last := es[|es| - 1];
      EntryTids(es[..|es| - 1], pid) + (if last.pid == pid then [last.tid] else [])
  }

  /** The nested dictionary's order: processes in the order of their first
      records, and each process's threads in the order of their first
      records among that process's records. */
  ghost predicate InFirstSeenOrder(g: seq<PidGroup>, es: seq<Entry>)
  {
    && PidOrder(g) == FirstSeen(EntryPids(es))
    && forall i :: 0 <= i < |g| ==> TidOrder(g[i].tids) == FirstSeen(EntryTids(es, g[i].pid))
  }

  /** A value is among the first-seen values exactly when it occurs. */
  lemma {:induction false} FirstSeenHas(s: seq<Value>, x: Value)
    ensures x in FirstSeen(s) <==> x in s
    decreases |s|
  {
    if s != [] {
      FirstSeenHas(s[..|s| - 1], x);
      assert s == s[..|s| - 1] + [s[|s| - 1]];
    }
  }

  /** A process without records has no thread ids. */
  lemma {:induction false} EntryTidsAbsent(es: seq<Entry>, pid: Value)
    requires pid !in EntryPids(es)
    ensures EntryTids(es, pid) == []
    decreases |es|
  {
    if es != [] {
      assert EntryPids(es[..|es| - 1]) == EntryPids(es)[..|es| - 1];
      EntryTidsAbsent(es[..|es| - 1], pid);
      assert es[|es| - 1].pid == EntryPids(es)[|es| - 1];
    }
  }

  /** `pids[pid]` is either updated in place at `k` or added at the end,
      when no process id matches. */
  lemma {:induction false} InsertPidCases(g: seq<PidGroup>, e: Entry) returns (found: bool, k: nat)
    ensures found ==> k < |g| && g[k].pid == e.pid
                      && Insert(g, e) == g[k := PidGroup(e.pid, InsertTid(g[k].tids, e.tid, e.data))]
    ensures !found ==> (forall i :: 0 <= i < |g| ==> g[i].pid != e.pid)
                       && Insert(g, e) == g + [PidGroup(e.pid, [TidGroup(e.tid, [e.data])])]
    decreases |g|
  {
    if g == [] {
      found, k := false, 0;
    } else if g[0].pid == e.pid {
      found, k := true, 0;
    } else {
      var f, k' := InsertPidCases(g[1..], e);
      found, k := f, k' + 1;
      assert Insert(g, e) == [g[0]] + Insert(g[1..], e);
      assert g == [g[0]] + g[1..];
      if f {
        assert g[1..][k'] == g[k];
        ConsUpdate(g[0], g[1..], k', PidGroup(e.pid, InsertTid(g[k].tids, e.tid, e.data)));
      } else {
        forall i | 0 <= i < |g| ensures g[i].pid != e.pid {
          if i > 0 { assert g[i] == g[1..][i - 1]; }
        }
        ConsAppend(g[0], g[1..], PidGroup(e.pid, [TidGroup(e.tid, [e.data])]));
      }
    }
  }

  /** Adding a record to a thread group extends the thread order only when
      the thread is new. */
  lemma InsertTidOrder(ts: seq<TidGroup>, tid: Value, x: string)
    ensures TidOrder(InsertTid(ts, tid, x)) == if tid in TidOrder(ts) then TidOrder(ts) else TidOrder(ts) + [tid]
  {
    var found, k := InsertTidCases(ts, tid, x);
    if !found {
      assert tid !in TidOrder(ts);
    }
  }

  /** One more value: it is added to the first-seen values only when new. */
  lemma FirstSeenSnoc(s: seq<Value>, x: Value)
    ensures FirstSeen(s + [x]) == if x in FirstSeen(s) then FirstSeen(s) else FirstSeen(s) + [x]
  {
    assert (s + [x])[..|s|] == s;
  }

  /** One more record: its thread id joins its own process's thread ids. */
  lemma EntryTidsSnoc(es: seq<Entry>, e: Entry, pid: Value)
    ensures EntryTids(es + [e], pid) == EntryTids(es, pid) + (if e.pid == pid then [e.tid] else [])
  {
    assert (es + [e])[..|es|] == es;
  }

  /** Filing a record under a process already present keeps the order. */
  lemma OrderFound(g: seq<PidGroup>, es: seq<Entry>, e: Entry, k: nat)
    requires InFirstSeenOrder(g, es) && PidsDistinct(g)
    requires k < |g| && g[k].pid == e.pid
    requires Insert(g, e) == g[k := PidGroup(e.pid, InsertTid(g[k].tids, e.tid, e.data))]
    ensures InFirstSeenOrder(Insert(g, e), es + [e])
  {
    var g' := Insert(g, e);
    assert EntryPids(es + [e]) == EntryPids(es) + [e.pid];
    FirstSeenSnoc(EntryPids(es), e.pid);
    assert PidOrder(g)[k] == e.pid;
    assert PidOrder(g') == PidOrder(g);
    forall i | 0 <= i < |g'| ensures TidOrder(g'[i].tids) == FirstSeen(EntryTids(es + [e], g'[i].pid)) {
      EntryTidsSnoc(es, e, g'[i].pid);
      if i == k {
        InsertTidOrder(g[k].tids, e.tid, e.data);
        FirstSeenSnoc(EntryTids(es, e.pid), e.tid);
      } else {
        assert g[i].pid != g[k].pid;
        assert EntryTids(es, g[i].pid) + [] == EntryTids(es, g[i].pid);
      }
    }
  }

  /** Filing a record of a new process adds its dictionary at the end. */
  lemma OrderNew(g: seq<PidGroup>, es: seq<Entry>, e: Entry)
    requires InFirstSeenOrder(g, es)
    requires forall i :: 0 <= i < |g| ==> g[i].pid != e.pid
    requires Insert(g, e) == g + [PidGroup(e.pid, [TidGroup(e.tid, [e.data])])]
    ensures InFirstSeenOrder(Insert(g, e), es + [e])
  {
    var g' := Insert(g, e);
    assert e.pid !in PidOrder(g);
    NewPidOrder(g, es, e);
    forall i | 0 <= i < |g'| ensures TidOrder(g'[i].tids) == FirstSeen(EntryTids(es + [e], g'[i].pid)) {
      if i == |g| {
        NewPidTids(es, e);
      } else {
        OtherPidTids(es, e, g[i].pid);
        assert g'[i] == g[i];
      }
    }
  }

  /** A new process id goes to the end of the process order. */
  lemma NewPidOrder(g: seq<PidGroup>, es: seq<Entry>, e: Entry)
    requires PidOrder(g) == FirstSeen(EntryPids(es)) && e.pid !in PidOrder(g)
    ensures PidOrder(g + [PidGroup(e.pid, [TidGroup(e.tid, [e.data])])]) == FirstSeen(EntryPids(es + [e]))
  {
    assert EntryPids(es + [e]) == EntryPids(es) + [e.pid];
    FirstSeenSnoc(EntryPids(es), e.pid);
    assert PidOrder(g + [PidGroup(e.pid, [TidGroup(e.tid, [e.data])])]) == PidOrder(g) + [e.pid];
  }

  /** The first record of a process gives it a single thread id. */
  lemma NewPidTids(es: seq<Entry>, e: Entry)
    requires e.pid !in FirstSeen(EntryPids(es))
    ensures FirstSeen(EntryTids(es + [e], e.pid)) == [e.tid]
  {
    FirstSeenHas(EntryPids(es), e.pid);
    EntryTidsAbsent(es, e.pid);
    EntryTidsSnoc(es, e, e.pid);
    FirstSeenSnoc([], e.tid);
    assert [] + [e.tid] == [e.tid];
  }

  /** A record of another process leaves a process's thread ids alone. */
  lemma OtherPidTids(es: seq<Entry>, e: Entry, pid: Value)
    requires pid != e.pid
    ensures EntryTids(es + [e], pid) == EntryTids(es, pid)
  {
    EntryTidsSnoc(es, e, pid);
    assert EntryTids(es, pid) + [] == EntryTids(es, pid);
  }

  /** The grouping loop keeps the nested dictionary in first-seen order at
      both levels (so the nested `for` loops of `flush` visit the processes
      by their first records, and each process's threads by theirs). */
  lemma {:induction false} GroupedOrder(es: seq<Entry>)
    ensures InFirstSeenOrder(Grouped(es), es)
    decreases |es|
  {
    if es != [] {
      var prefix := es[..|es| - 1];
      var e := es[|es| - 1];
      assert prefix + [e] == es;
      GroupedOrder(prefix);
      GroupedPartitions(prefix);
      var found, k := InsertPidCases(Grouped(prefix), e);
      if found {
        OrderFound(Grouped(prefix), prefix, e, k);
      } else {
        OrderNew(Grouped(prefix), prefix, e);
      }
    }
  }
}
