/**
 The lease query: which queued shards a caller may take, and in which order.
 */
module Queue {
  import opened Rows

  datatype LeaseCall = LeaseCall(agent: AgentId, tenant: TenantId, backend: string)

  predicate Eligible(db: Tables, q: LeaseCall, x: ShardId) {
    && x in db.shards && db.shards[x].status.Queued?
    && db.shards[x].task in db.tasks
    && var t := db.tasks[db.shards[x].task];
    && t.tenant == q.tenant && t.status.Leasable()
    && q.tenant in db.tenants && db.tenants[q.tenant].backend == q.backend
  }

  predicate TextLe(a: string, b: string) {
    |a| == 0 || (|b| > 0 && (a[0] < b[0] || (a[0] == b[0] && TextLe(a[1..], b[1..]))))
  }

  /** The order of the queue: task creation time, then script name. */
  predicate Precedes(db: Tables, x: ShardId, y: ShardId)
    requires x in db.shards && db.shards[x].task in db.tasks
    requires y in db.shards && db.shards[y].task in db.tasks
  {
    var a, b := db.tasks[db.shards[x].task].createdAt, db.tasks[db.shards[y].task].createdAt;
    a < b || (a == b && TextLe(db.shards[x].script, db.shards[y].script))
  }

  ghost predicate IsNext(db: Tables, q: LeaseCall, x: ShardId) {
    Eligible(db, q, x) && forall y :: Eligible(db, q, y) ==> Precedes(db, x, y)
  }

  /******* The order is total, so a nonempty queue has a first shard *******/

  lemma {:induction false} TextTotal(a: string, b: string)
    ensures TextLe(a, b) || TextLe(b, a)
  {
    if |a| > 0 && |b| > 0 && a[0] == b[0] { TextTotal(a[1..], b[1..]); }
  }

  lemma {:induction false} TextTransitive(a: string, b: string, c: string)
    requires TextLe(a, b) && TextLe(b, c)
    ensures TextLe(a, c)
  {
    if |a| > 0 && a[0] == b[0] && b[0] == c[0] { TextTransitive(a[1..], b[1..], c[1..]); }
  }

  lemma PrecedesTotal(db: Tables, q: LeaseCall, x: ShardId, y: ShardId)
    requires Eligible(db, q, x) && Eligible(db, q, y)
    ensures Precedes(db, x, y) || Precedes(db, y, x)
  {
    TextTotal(db.shards[x].script, db.shards[y].script);
  }

  lemma PrecedesTransitive(db: Tables, q: LeaseCall, x: ShardId, y: ShardId, z: ShardId)
    requires Eligible(db, q, x) && Eligible(db, q, y) && Eligible(db, q, z) && Precedes(db, x, y) && Precedes(db, y, z)
    ensures Precedes(db, x, z)
  {
    var a, b, c := db.shards[x].script, db.shards[y].script, db.shards[z].script;
    if TextLe(a, b) && TextLe(b, c) { TextTransitive(a, b, c); }
  }

  predicate FirstOf(db: Tables, q: LeaseCall, xs: set<ShardId>, x: ShardId) {
    Eligible(db, q, x) && forall y :: y in xs && Eligible(db, q, y) ==> Precedes(db, x, y)
  }

  /** Some shard comes first whenever any is eligible. */
  lemma {:induction false} FirstExists(db: Tables, q: LeaseCall, xs: set<ShardId>)
    requires exists y :: y in xs && Eligible(db, q, y)
    ensures exists x :: x in xs && FirstOf(db, q, xs, x)
  {
    var y :| y in xs && Eligible(db, q, y);
    var rest := xs - {y};
    if z :| z in rest && Eligible(db, q, z) {
      FirstExists(db, q, rest);
      var x :| x in rest && FirstOf(db, q, rest, x);
      PrecedesTotal(db, q, x, y);
      PrecedesTotal(db, q, y, y);
      if !Precedes(db, x, y) {
        forall w | w in xs && Eligible(db, q, w) ensures Precedes(db, y, w) {
          if w != y { PrecedesTransitive(db, q, y, x, w); }
        }
        assert FirstOf(db, q, xs, y);
      } else {
        assert FirstOf(db, q, xs, x);
      }
    } else {
      PrecedesTotal(db, q, y, y);
      assert FirstOf(db, q, xs, y);
    }
  }

  lemma NextExists(db: Tables, q: LeaseCall)
    ensures (exists x :: IsNext(db, q, x)) || forall y :: !Eligible(db, q, y)
  {
    if y :| Eligible(db, q, y) {
      var xs := db.shards.Keys;
      assert y in xs;
      FirstExists(db, q, xs);
      var x :| x in xs && FirstOf(db, q, xs, x);
      assert IsNext(db, q, x);
    }
  }
  /******* The queue, column by column *******/

  /** A QUEUED shard of that tenant, with that backend, whose task is neither PENDING nor closed. */
  predicate Open(db: Tables, tenant: TenantId, backend: string, x: ShardId) {
    && x in db.shards && db.shards[x].status == ShardStatus.Queued && db.shards[x].task in db.tasks
    && db.tasks[db.shards[x].task].tenant == tenant && tenant in db.tenants && db.tenants[tenant].backend == backend
    && var status := db.tasks[db.shards[x].task].status;
    && status != TaskStatus.Pending && status != TaskStatus.Succeeded && status != TaskStatus.Failed && status != TaskStatus.Cancelled
  }

  /** Dictionary order: a prefix, or smaller at the first difference. */
  predicate Lexicographic(a: string, b: string) {
    a <= b || exists i :: 0 <= i < |a| && i < |b| && a[..i] == b[..i] && a[i] < b[i]
  }

  /** Of an older task, or of one as old and no later in the dictionary order of script names. */
  predicate Ahead(db: Tables, x: ShardId, y: ShardId)
    requires x in db.shards && db.shards[x].task in db.tasks && y in db.shards && db.shards[y].task in db.tasks
  {
    var a, b := db.tasks[db.shards[x].task].createdAt, db.tasks[db.shards[y].task].createdAt;
    a < b || (a == b && Lexicographic(db.shards[x].script, db.shards[y].script))
  }

  ghost predicate FirstOpen(db: Tables, tenant: TenantId, backend: string, x: ShardId) {
    Open(db, tenant, backend, x) && forall y :: Open(db, tenant, backend, y) ==> Ahead(db, x, y)
  }

  /** Every QUEUED shard of the tenant and backend is under a task that is PENDING, SUCCEEDED, FAILED or CANCELLED. */
  ghost predicate AllClosed(db: Tables, tenant: TenantId, backend: string) {
    forall x :: x in db.shards && db.shards[x].status == ShardStatus.Queued && db.shards[x].task in db.tasks &&
                db.tasks[db.shards[x].task].tenant == tenant && tenant in db.tenants && db.tenants[tenant].backend == backend ==>
      var status := db.tasks[db.shards[x].task].status;
      status == TaskStatus.Pending || status == TaskStatus.Succeeded || status == TaskStatus.Failed || status == TaskStatus.Cancelled
  }

  lemma NoneOpen(db: Tables, tenant: TenantId, backend: string)
    ensures AllClosed(db, tenant, backend) <==> forall x :: !Open(db, tenant, backend, x)
  {
    if forall x :: !Open(db, tenant, backend, x) {
      forall x | x in db.shards && db.shards[x].status == ShardStatus.Queued && db.shards[x].task in db.tasks &&
                 db.tasks[db.shards[x].task].tenant == tenant && tenant in db.tenants && db.tenants[tenant].backend == backend
        ensures db.tasks[db.shards[x].task].status == TaskStatus.Pending || db.tasks[db.shards[x].task].status.Terminal()
      {
        assert !Open(db, tenant, backend, x);
      }
    }
  }

  lemma EligibleMeans(db: Tables, q: LeaseCall, x: ShardId)
    ensures Eligible(db, q, x) <==> Open(db, q.tenant, q.backend, x)
  {
  }

  lemma SameStart(a: string, b: string, i: nat)
    requires 0 < i <= |a| && i <= |b| && a[..i] == b[..i]
    ensures a[0] == b[0]
  {
    assert a[..i][0] == b[..i][0];
  }

  lemma {:induction false} TextLeMeans(a: string, b: string)
    ensures TextLe(a, b) <==> Lexicographic(a, b)
  {
    forall i | 0 < i < |a| && i < |b| && a[..i] == b[..i] ensures a[0] == b[0] { SameStart(a, b, i); }
    if |a| > 0 && |b| > 0 && a[0] == b[0] {
      var a', b' := a[1..], b[1..];
      TextLeMeans(a', b');
      assert a == [a[0]] + a' && b == [b[0]] + b';
      if i :| 0 <= i < |a'| && i < |b'| && a'[..i] == b'[..i] && a'[i] < b'[i] {
        assert a[..i + 1] == [a[0]] + a'[..i] && b[..i + 1] == [b[0]] + b'[..i];
        assert a[i + 1] < b[i + 1];
      }
      if i :| 0 <= i < |a| && i < |b| && a[..i] == b[..i] && a[i] < b[i] {
        assert a'[..i - 1] == a[..i][1..] && b'[..i - 1] == b[..i][1..];
        assert a'[i - 1] < b'[i - 1];
      }
    } else if |a| > 0 && |b| > 0 {
      assert a[0] < b[0] ==> a[..0] == b[..0];
    }
  }

  /** The lease query returns the first open shard, and nothing exactly when no shard is open. */
  lemma IsNextMeans(db: Tables, q: LeaseCall, x: ShardId)
    ensures IsNext(db, q, x) <==> FirstOpen(db, q.tenant, q.backend, x)
  {
    forall y ensures Eligible(db, q, y) <==> Open(db, q.tenant, q.backend, y) { EligibleMeans(db, q, y); }
    if Open(db, q.tenant, q.backend, x) {
      forall y | Open(db, q.tenant, q.backend, y) ensures Precedes(db, x, y) <==> Ahead(db, x, y) {
        TextLeMeans(db.shards[x].script, db.shards[y].script);
      }
    }
  }
}
