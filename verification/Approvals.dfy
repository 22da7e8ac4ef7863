/** The approval handlers and the store in their own imperative form, each method proved
    to do to the shared state exactly what `ApprovalSpec` says. */
module Approvals {
  import opened Domain
  import opened Faults
  import opened PendingRow
  import Spec = ApprovalSpec

  /** The row, the resource and the audit record, behind every call. */
  class Backend {
    var w: Spec.LiveWorld

    method Interfere(c: Spec.Call)
      modifies this
      ensures w == Spec.Others(old(w), c)
    {
      w := w.(res := w.res + c.before);
    }

    method Get(c: Spec.Call) returns (got: Spec.Got)
      modifies this
      ensures (w, got) == Spec.Get(old(w), c)
    {
      Interfere(c);
      if c.fate.Dies() {
        got := Spec.ReaderDead;
      } else if !c.fate.Done? || c.at >= |w.res| {
        got := Spec.Unread;
      } else if w.res[c.at].None? {
        got := Spec.NotFound;
      } else {
        got := Spec.Found(w.res[c.at].value, c.at);
      }
    }

    /** A create, update or delete, admitted iff `fits` held at the server. */
    method Write(value: Option<string>, fits: bool, fate: Fate) returns (reply: Reply)
      modifies this
      ensures (w, reply) == Spec.Put(old(w), value, fits, fate)
    {
      if fits && fate.Commits() {
        w := w.(res := w.res + [value], writes := w.writes + 1);
      }
      reply := ReplyTo(fate, fits);
    }
  }

  /** internal/adapters/driven/auth/sqlite_store.go */
  class SqliteStore {
    const backend: Backend

    constructor (backend: Backend)
      ensures this.backend == backend
    {
      this.backend := backend;
    }

    method BeginPendingDecision(reviewer: string, verdict: Verdict, now: int, c: Spec.Call) returns (reply: Reply)
      modifies backend
      ensures var row := old(backend.w.row);
              (backend.w, reply) == Spec.PutRow(old(backend.w), Begun(row, reviewer, verdict, now), CanBegin(row, verdict, now), c)
    {
      backend.Interfere(c);
      var row := backend.w.row;
      var interim := verdict.Interim();
      var matched := row.status.Open? || (row.status == interim && row.reviewedAt.Some? && row.reviewedAt.value < now - LEASE);
      if matched && c.fate.Commits() {
        backend.w := backend.w.(row := Row(interim, if row.status.Open? then Some(reviewer) else row.reviewedBy, Some(now)));
      }
      reply := ReplyTo(c.fate, matched);
    }

    method CancelPendingDecision(reviewer: string, c: Spec.Call) returns (reply: Reply)
      modifies backend
      ensures (backend.w, reply) == Spec.PutRow(old(backend.w), CANCELLED, CanCancel(old(backend.w.row), reviewer), c)
    {
      backend.Interfere(c);
      var row := backend.w.row;
      var matched := (row.status.Approving? || row.status.Rejecting?) && row.reviewedBy == Some(reviewer);
      if matched && c.fate.Commits() {
        backend.w := backend.w.(row := Row(Open, None, None));
      }
      reply := ReplyTo(c.fate, matched);
    }

    method FinalizePendingDecision(reviewer: string, verdict: Verdict, now: int, c: Spec.Call) returns (reply: Reply)
      modifies backend
      ensures var row := old(backend.w.row);
              (backend.w, reply) == Spec.PutRow(old(backend.w), Finalized(row, verdict, now), CanFinalize(row, reviewer, verdict), c)
    {
      backend.Interfere(c);
      var row := backend.w.row;
      var matched := row.status == verdict.Interim() && row.reviewedBy == Some(reviewer);
      if matched && c.fate.Commits() {
        backend.w := backend.w.(row := row.(status := verdict.Final(), reviewedAt := Some(now)));
      }
      reply := ReplyTo(c.fate, matched);
    }
  }

  /** internal/adapters/driving/api/auth_handlers.go */
  class ApprovalHandlers {
    const backend: Backend
    const store: SqliteStore

    ghost predicate Wired() {
      store.backend == backend
    }

    constructor (backend: Backend)
      ensures Wired() && this.backend == backend
    {
      this.backend := backend;
      store := new SqliteStore(backend);
    }

    method ApplyPendingChange(change: Spec.Change, s: Spec.Script) returns (applied: Spec.Applied)
      modifies backend
      ensures (backend.w, applied) == Spec.Apply(old(backend.w), change, s)
    {
      if !change.inNamespace || !change.valid {
        return Spec.NotApplied;
      }
      var got := backend.Get(s.read);
      if got.ReaderDead? {
        return Spec.ApplierDead;
      }
      if change.kind.Delete? {
        if got.NotFound? {
          return Spec.InEffect;
        }
        if got.Unread? || got.version != change.version {
          return Spec.NotApplied;
        }
        backend.Interfere(s.write);
        var live := backend.w.Live().Some? && |backend.w.res| - 1 == change.version;
        var reply := backend.Write(None, live, s.write.fate);
        if reply.Ok? {
          return Spec.InEffect;
        }
        if reply.Dead? {
          return Spec.ApplierDead;
        }
        var again := backend.Get(s.reread);
        match again
        case NotFound => return Spec.InEffect;
        case Found(_, v) => return if v == change.version then Spec.NotApplied else Spec.Uncertain;
        case Unread => return Spec.Uncertain;
        case ReaderDead => return Spec.ApplierDead;
      }
      if !change.decodes {
        return Spec.NotApplied;
      }
      if change.kind.Create? {
        if got.Unread? {
          return Spec.NotApplied;
        }
        if got.Found? {
          return if got.spec == change.spec then Spec.InEffect else Spec.NotApplied;
        }
        backend.Interfere(s.write);
        var reply := backend.Write(Some(change.spec), backend.w.Live().None?, s.write.fate);
        if reply.Ok? {
          return Spec.InEffect;
        }
        if reply.Dead? {
          return Spec.ApplierDead;
        }
        var again := backend.Get(s.reread);
        match again
        case Found(spec, _) => return if spec == change.spec then Spec.InEffect else Spec.Uncertain;
        case NotFound => return Spec.NotApplied;
        case Unread => return Spec.Uncertain;
        case ReaderDead => return Spec.ApplierDead;
      }
      if !got.Found? {
        return Spec.NotApplied;
      }
      if got.spec == change.spec {
        return Spec.InEffect;
      }
      if got.version != change.version {
        return Spec.NotApplied;
      }
      backend.Interfere(s.write);
      var reply := backend.Write(Some(change.spec), |backend.w.res| - 1 == got.version, s.write.fate);
      if reply.Ok? {
        return Spec.InEffect;
      }
      if reply.Dead? {
        return Spec.ApplierDead;
      }
      var again := backend.Get(s.reread);
      match again
      case Found(spec, v) =>
        return if spec == change.spec then Spec.InEffect else if v == change.version then Spec.NotApplied else Spec.Uncertain;
      case NotFound => return Spec.Uncertain;
      case Unread => return Spec.Uncertain;
      case ReaderDead => return Spec.ApplierDead;
    }

    method RecordApprovalDecision(outcome: Spec.Outcome, s: Spec.Script) returns (reply: Reply)
      modifies backend
      ensures (backend.w, reply) == Spec.RecordDecision(old(backend.w), outcome, s)
    {
      backend.Interfere(s.audit);
      var existed := backend.w.audit.Some?;
      if !existed && s.audit.fate.Commits() {
        backend.w := backend.w.(audit := Some(outcome));
      }
      if s.audit.fate.Dies() {
        return Dead;
      }
      if !s.audit.fate.Done? {
        return Error;
      }
      if existed {
        backend.Interfere(s.auditRead);
        if s.auditRead.fate.Dies() {
          return Dead;
        }
        if !s.auditRead.fate.Done? || backend.w.audit != Some(outcome) {
          return Error;
        }
      }
      return Ok;
    }

    method HandleApprove(change: Spec.Change, reviewer: string, s: Spec.Script)
      requires Wired()
      modifies backend
      ensures backend.w == Spec.HandleApprove(old(backend.w), change, reviewer, s)
    {
      hide Spec.Apply, Spec.RecordDecision;
      if !change.inNamespace || change.requester == reviewer {
        return;
      }
      var begun := store.BeginPendingDecision(reviewer, Approve, s.now, s.begin);
      if !begun.Ok? {
        return;
      }
      var owner := Spec.Owner(backend.w.row, reviewer);
      var applied := ApplyPendingChange(change, s);
      if applied.NotApplied? {
        var _ := store.CancelPendingDecision(owner, s.cancel);
      }
      if !applied.InEffect? {
        return;
      }
      var recorded := RecordApprovalDecision(Spec.Success, s);
      if recorded.Ok? {
        var _ := store.FinalizePendingDecision(owner, Approve, s.now, s.finalize);
      }
    }

    method HandleReject(change: Spec.Change, reviewer: string, s: Spec.Script)
      requires Wired()
      modifies backend
      ensures backend.w == Spec.HandleReject(old(backend.w), change, reviewer, s)
    {
      hide Spec.RecordDecision;
      if !change.inNamespace {
        return;
      }
      var begun := store.BeginPendingDecision(reviewer, Reject, s.now, s.begin);
      if !begun.Ok? {
        return;
      }
      var owner := Spec.Owner(backend.w.row, reviewer);
      var recorded := RecordApprovalDecision(Spec.Blocked, s);
      if recorded.Ok? {
        var _ := store.FinalizePendingDecision(owner, Reject, s.now, s.finalize);
      } else if recorded.Error? {
        var _ := store.CancelPendingDecision(owner, s.cancel);
      }
    }
  }
}
