/**
 Waiting order across restarts. The steps are those of the deployment system, except that a trigger
 queues its task and saves the record in one go; a crash may still come between any two steps.
 */
module QueueOrder {
  import opened Common
  import opened TaskStores
  import opened QueuePersistences
  import opened Agents
  import opened DeploySystem

  type Items = seq<QueuedDeploy>

  // ---------- ordered subsequences ----------

  /** `a` is what is left of `b` after dropping some items. */
  predicate Subseq(a: Items, b: Items)
    decreases |b|
  {
    || a == []
    || (b != [] &&
        if a[|a| - 1] == b[|b| - 1] then Subseq(a[..|a| - 1], b[..|b| - 1]) else Subseq(a, b[..|b| - 1]))
  }

  lemma {:induction false} SubseqShorter(a: Items, b: Items)
    requires a != [] && Subseq(a, b)
    ensures Subseq(a[..|a| - 1], b)
    decreases |b|
  {
    var a', b' := a[..|a| - 1], b[..|b| - 1];
    if a[|a| - 1] == b[|b| - 1] {
      if a' != [] { SubseqShorter(a', b'); }
    } else {
      SubseqShorter(a, b');
      if a' != [] && a'[|a'| - 1] == b[|b| - 1] { SubseqShorter(a', b'); }
    }
  }

  lemma SubseqPush(a: Items, b: Items, x: QueuedDeploy)
    requires Subseq(a, b)
    ensures Subseq(a + [x], b + [x])
  {
    assert (a + [x])[..|a|] == a && (b + [x])[..|b|] == b;
  }

  lemma SubseqLonger(a: Items, b: Items, x: QueuedDeploy)
    requires Subseq(a, b)
    ensures Subseq(a, b + [x])
  {
    assert (b + [x])[..|b|] == b;
    if a != [] && a[|a| - 1] == x { SubseqShorter(a, b); }
  }

  lemma {:induction false} SubseqSelf(a: Items)
    ensures Subseq(a, a)
  {
    if a != [] { SubseqSelf(a[..|a| - 1]); }
  }

  /** Leaving out one item of a subsequence. */
  lemma {:induction false} SubseqDrop(a: Items, i: nat, b: Items)
    requires i < |a| && Subseq(a, b)
    ensures Subseq(a[..i] + a[i + 1..], b)
    decreases |b|
  {
    var a', b' := a[..|a| - 1], b[..|b| - 1];
    var r := a[..i] + a[i + 1..];
    if i == |a| - 1 {
      assert r == a';
      SubseqShorter(a, b);
    } else {
      assert r[|r| - 1] == a[|a| - 1] && r[..|r| - 1] == a'[..i] + a'[i + 1..];
      if a[|a| - 1] == b[|b| - 1] { SubseqDrop(a', i, b'); } else { SubseqDrop(a, i, b'); }
    }
  }

  lemma {:induction false} SubseqTrans(a: Items, b: Items, c: Items)
    requires Subseq(a, b) && Subseq(b, c)
    ensures Subseq(a, c)
    decreases |c|
  {
    if a != [] {
      var c' := c[..|c| - 1];
      assert c == c' + [c[|c| - 1]];
      if b[|b| - 1] == c[|c| - 1] {
        var b' := b[..|b| - 1];
        if a[|a| - 1] == b[|b| - 1] {
          SubseqTrans(a[..|a| - 1], b', c');
        } else {
          SubseqTrans(a, b', c');
        }
      } else {
        SubseqTrans(a, b, c');
        SubseqLonger(a, c', c[|c| - 1]);
      }
    }
  }

  lemma {:induction false} FreshPush(q: Items, x: QueuedDeploy, now: Time)
    ensures Fresh(q + [x], now) == Fresh(q, now) + if Stale(x, now) then [] else [x]
  {
    if q == [] {
      assert q + [x] == [x] && [x][1..] == [];
    } else {
      assert (q + [x])[1..] == q[1..] + [x];
      FreshPush(q[1..], x, now);
    }
  }

  /** Expiry leaves a subsequence. */
  lemma {:induction false} FreshSubseq(q: Items, now: Time)
    ensures Subseq(Fresh(q, now), q)
  {
    if q != [] {
      var front, x := q[..|q| - 1], q[|q| - 1];
      assert q == front + [x];
      FreshSubseq(front, now);
      FreshPush(front, x, now);
      if Stale(x, now) {
        assert Fresh(q, now) == Fresh(front, now);
        SubseqLonger(Fresh(front, now), front, x);
      } else {
        SubseqPush(Fresh(front, now), front, x);
      }
    }
  }

  // ---------- the queued records of a list ----------

  predicate NoItem(q: Items, id: TaskId) {
    forall i :: 0 <= i < |q| ==> q[i].id != id
  }

  /** Records of one list carry different ids. */
  predicate Distinct(m: seq<PersistedTask>) {
    forall i, j :: 0 <= i < j < |m| ==> m[i].id != m[j].id
  }

  lemma QueuedInPush(m: seq<PersistedTask>, t: PersistedTask, p: Project)
    ensures QueuedIn(m + [t], p) == QueuedIn(m, p) + ItemOf(t, p)
  {
    assert (m + [t])[..|m|] == m;
  }

  lemma {:induction false} QueuedInSum(a: seq<PersistedTask>, b: seq<PersistedTask>, p: Project)
    ensures QueuedIn(a + b, p) == QueuedIn(a, p) + QueuedIn(b, p)
  {
    if b == [] {
      assert a + b == a;
    } else {
      var b', t := b[..|b| - 1], b[|b| - 1];
      assert a + b == (a + b') + [t];
      QueuedInPush(a + b', t, p);
      QueuedInSum(a, b', p);
    }
  }

  function DropItem(q: Items, id: TaskId): Items {
    if q == [] then []
    else DropItem(q[..|q| - 1], id) + if q[|q| - 1].id == id then [] else [q[|q| - 1]]
  }

  /** A queue item stands for a queued record of the project. */
  lemma {:induction false} QueuedRecord(m: seq<PersistedTask>, p: Project, i: nat)
    requires i < |QueuedIn(m, p)|
    ensures exists j :: 0 <= j < |m| && m[j].id == QueuedIn(m, p)[i].id && m[j].project == p && !m[j].running
  {
    var front := m[..|m| - 1];
    if i < |QueuedIn(front, p)| {
      QueuedRecord(front, p, i);
      var j :| 0 <= j < |front| && front[j].id == QueuedIn(front, p)[i].id && front[j].project == p && !front[j].running;
      assert m[j] == front[j];
    } else {
      assert m[|m| - 1].id == QueuedIn(m, p)[i].id;
    }
  }

  /** Items outside the dropped id stay, in order. */
  lemma {:induction false} SubseqKept(a: Items, b: Items, id: TaskId)
    requires Subseq(a, b) && NoItem(a, id)
    ensures Subseq(a, DropItem(b, id))
    decreases |b|
  {
    if a != [] {
      var a', b', x := a[..|a| - 1], b[..|b| - 1], b[|b| - 1];
      var r := DropItem(b', id);
      if a[|a| - 1] == x {
        SubseqKept(a', b', id);
        SubseqPush(a', r, x);
        assert a == a' + [x];
      } else {
        SubseqKept(a, b', id);
        SubseqLonger(a, r, x);
        assert r + [] == r;
      }
    }
  }

  lemma DropItemLast(q: Items, x: QueuedDeploy, id: TaskId)
    ensures DropItem(q + [x], id) == DropItem(q, id) + if x.id == id then [] else [x]
  {
    assert (q + [x])[..|q|] == q;
  }

  lemma {:induction false} QueuedInRemoved(m: seq<PersistedTask>, id: TaskId, p: Project)
    ensures QueuedIn(RemoveFrom(m, id), p) == DropItem(QueuedIn(m, p), id)
  {
    if m != [] {
      var front, t := m[..|m| - 1], m[|m| - 1];
      var item, r := ItemOf(t, p), RemoveFrom(front, id);
      QueuedInRemoved(front, id, p);
      if item == [] {
        assert QueuedIn(m, p) == QueuedIn(front, p);
      } else {
        DropItemLast(QueuedIn(front, p), item[0], id);
      }
      if t.id == id {
        assert RemoveFrom(m, id) == r;
      } else {
        QueuedInPush(r, t, p);
      }
    }
  }

  lemma SubseqRemove(q: Items, m: seq<PersistedTask>, id: TaskId, p: Project)
    requires Subseq(q, QueuedIn(m, p)) && NoItem(q, id)
    ensures Subseq(q, QueuedIn(RemoveFrom(m, id), p))
  {
    SubseqKept(q, QueuedIn(m, p), id);
    QueuedInRemoved(m, id, p);
  }

  lemma MarkedHead(t: PersistedTask, rest: seq<PersistedTask>, p: Project)
    ensures QueuedIn([t] + rest, p) == ItemOf(t, p) + QueuedIn(rest, p)
  {
    QueuedInSum([t], rest, p);
    assert [t][..0] == [];
  }

  /** The first record is the one: marking it or removing it, the rest stays. */
  lemma MarkedFirst(m: seq<PersistedTask>, at: Time, p: Project)
    requires m != [] && Distinct(m)
    ensures QueuedIn(MarkIn(m, m[0].id, at), p) == QueuedIn(RemoveFrom(m, m[0].id), p)
  {
    var rest := m[1..];
    RemoveHead(m, m[0].id);
    RemoveShortens(rest, m[0].id);
    assert RemoveFrom(m, m[0].id) == rest;
    MarkedHead(m[0].(running := true, startedAt := Some(at)), rest, p);
    assert [] + QueuedIn(rest, p) == QueuedIn(rest, p);
  }

  lemma MarkedRest(m: seq<PersistedTask>, id: TaskId, at: Time, p: Project)
    requires m != [] && m[0].id != id && QueuedIn(MarkIn(m[1..], id, at), p) == QueuedIn(RemoveFrom(m[1..], id), p)
    ensures QueuedIn(MarkIn(m, id, at), p) == QueuedIn(RemoveFrom(m, id), p)
  {
    RemoveHead(m, id);
    MarkedHead(m[0], MarkIn(m[1..], id, at), p);
    MarkedHead(m[0], RemoveFrom(m[1..], id), p);
  }

  /** Among different ids, a record marked running leaves the queued ones exactly as if removed. */
  lemma {:induction false} MarkedLikeRemoved(m: seq<PersistedTask>, id: TaskId, at: Time, p: Project)
    requires Distinct(m)
    ensures QueuedIn(MarkIn(m, id, at), p) == QueuedIn(RemoveFrom(m, id), p)
  {
    if m != [] {
      if m[0].id == id {
        MarkedFirst(m, at, p);
      } else {
        MarkedLikeRemoved(m[1..], id, at, p);
        MarkedRest(m, id, at, p);
      }
    }
  }

  lemma {:induction false} RemoveDistinct(m: seq<PersistedTask>, id: TaskId)
    requires Distinct(m)
    ensures Distinct(RemoveFrom(m, id))
  {
    if m != [] {
      var front, t := m[..|m| - 1], m[|m| - 1];
      RemoveDistinct(front, id);
      RemoveFromIds(front, id, t.id);
      assert forall i :: 0 <= i < |front| ==> front[i] == m[i];
    }
  }
}
