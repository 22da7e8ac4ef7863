/** Approving and rejecting a pending change as functions of the world and the script of
    its calls (internal/adapters/driving/api/auth_handlers.go): lease, idempotent apply,
    deterministically named audit record, finalisation. */
module ApprovalSpec {
  import opened Domain
  import opened Faults
  import opened PendingRow

  datatype ChangeKind = Create | Update | Delete

  /** `valid`, `inNamespace` and `decodes` are the outcomes of the checks made on the
      stored request and its payload. */
  datatype Change = Change(
    kind: ChangeKind, spec: string, version: nat, requester: string,
    valid: bool, inNamespace: bool, decodes: bool)

  /** The result field of the audit record. */
  datatype Outcome = Success | Blocked

  /** `res` holds every version of the resource (`None` = absent); the last is live and an
      index is a resourceVersion.  `audit` is the result told by the one record named
      after the change.  `writes` counts committed resource writes of the
      handlers. */
  datatype World = World(row: Row, res: seq<Option<string>>, audit: Option<Outcome>, writes: nat) {
    function Live(): Option<string>
      requires |res| > 0
    {
      res[|res| - 1]
    }
  }

  type LiveWorld = w: World | |w.res| > 0 witness World(CANCELLED, [None], None, 0)

  /** Other writers of the resource act first; a read returns version `at`. */
  datatype Call = Call(before: seq<Option<string>>, fate: Fate, at: nat)

  function Others(w: LiveWorld, c: Call): LiveWorld {
    w.(res := w.res + c.before)
  }

  datatype Script = Script(
    now: int, begin: Call, read: Call, write: Call, reread: Call,
    audit: Call, auditRead: Call, cancel: Call, finalize: Call)

  // ---------------------------------------------------------------- reads and writes

  datatype Got = Found(spec: string, version: nat) | NotFound | Unread | ReaderDead

  function Get(w: LiveWorld, c: Call): (LiveWorld, Got) {
    var w1 := Others(w, c);
    (w1, if c.fate.Dies() then ReaderDead
         else if !c.fate.Done? || c.at >= |w1.res| then Unread
         else if w1.res[c.at].None? then NotFound
         else Found(w1.res[c.at].value, c.at))
  }

  /** A resource write admitted by the server iff `fits` then holds. */
  function Put(w: LiveWorld, value: Option<string>, fits: bool, fate: Fate): (LiveWorld, Reply) {
    (if fits && fate.Commits() then w.(res := w.res + [value], writes := w.writes + 1) else w, ReplyTo(fate, fits))
  }

  /** The change is in effect in this version of the resource. */
  predicate Meets(change: Change, version: Option<string>) {
    if change.kind.Delete? then version.None? else version == Some(change.spec)
  }

  // ---------------------------------------------------------------- applyPendingChange

  datatype Applied = InEffect | NotApplied | Uncertain | ApplierDead

  function ApplyDelete(w: LiveWorld, change: Change, got: Got, s: Script): (LiveWorld, Applied) {
    match got
    case ReaderDead => (w, ApplierDead)
    case NotFound => (w, InEffect)
    case Unread => (w, NotApplied)
    case Found(_, version) =>
      if version != change.version then (w, NotApplied) else
      var w1 := Others(w, s.write);
      var (w2, reply) := Put(w1, None, w1.Live().Some? && |w1.res| - 1 == change.version, s.write.fate);
      match reply
      case Ok => (w2, InEffect)
      case Dead => (w2, ApplierDead)
      case Error =>
        var (w3, again) := Get(w2, s.reread);
        (w3, match again
             case NotFound => InEffect
             case Found(_, v) => if v == change.version then NotApplied else Uncertain
             case Unread => Uncertain
             case ReaderDead => ApplierDead)
  }

  function ApplyCreate(w: LiveWorld, change: Change, got: Got, s: Script): (LiveWorld, Applied) {
    match got
    case ReaderDead => (w, ApplierDead)
    case Unread => (w, NotApplied)
    case Found(spec, _) => (w, if spec == change.spec then InEffect else NotApplied)
    case NotFound =>
      var w1 := Others(w, s.write);
      var (w2, reply) := Put(w1, Some(change.spec), w1.Live().None?, s.write.fate);
      match reply
      case Ok => (w2, InEffect)
      case Dead => (w2, ApplierDead)
      case Error =>
        var (w3, again) := Get(w2, s.reread);
        (w3, match again
             case Found(spec, _) => if spec == change.spec then InEffect else Uncertain
             case NotFound => NotApplied
             case Unread => Uncertain
             case ReaderDead => ApplierDead)
  }

  function ApplyUpdate(w: LiveWorld, change: Change, got: Got, s: Script): (LiveWorld, Applied) {
    match got
    case ReaderDead => (w, ApplierDead)
    case NotFound => (w, NotApplied)
    case Unread => (w, NotApplied)
    case Found(spec, version) =>
      if spec == change.spec then (w, InEffect)
      else if version != change.version then (w, NotApplied)
      else
        var w1 := Others(w, s.write);
        var (w2, reply) := Put(w1, Some(change.spec), |w1.res| - 1 == version, s.write.fate);
        match reply
        case Ok => (w2, InEffect)
        case Dead => (w2, ApplierDead)
        case Error =>
          var (w3, again) := Get(w2, s.reread);
          (w3, match again
               case Found(spec', v) =>
                 if spec' == change.spec then InEffect else if v == change.version then NotApplied else Uncertain
               case NotFound => Uncertain
               case Unread => Uncertain
               case ReaderDead => ApplierDead)
  }

  function Apply(w: LiveWorld, change: Change, s: Script): (LiveWorld, Applied) {
    if !change.inNamespace || !change.valid then (w, NotApplied) else
    var (w1, got) := Get(w, s.read);
    if change.kind.Delete? then ApplyDelete(w1, change, got, s)
    else if got.ReaderDead? then (w1, ApplierDead)
    else if !change.decodes then (w1, NotApplied)
    else if change.kind.Create? then ApplyCreate(w1, change, got, s)
    else ApplyUpdate(w1, change, got, s)
  }

  // ---------------------------------------------------------------- audit record

  function RecordDecision(w: LiveWorld, outcome: Outcome, s: Script): (LiveWorld, Reply) {
    var w1 := Others(w, s.audit);
    var w2 := if w1.audit.None? && s.audit.fate.Commits() then w1.(audit := Some(outcome)) else w1;
    if s.audit.fate.Dies() then (w2, Dead)
    else if !s.audit.fate.Done? then (w2, Error)
    else if w1.audit.None? then (w2, Ok)
    else
      // AlreadyExists: the stored record must tell of the same decision
      var w3 := Others(w2, s.auditRead);
      if s.auditRead.fate.Dies() then (w3, Dead)
      else if !s.auditRead.fate.Done? then (w3, Error)
      else (w3, if w3.audit == Some(outcome) then Ok else Error)
  }

  // ---------------------------------------------------------------- the handlers

  /** A conditional update of the row. */
  function PutRow(w: LiveWorld, row: Row, fits: bool, c: Call): (LiveWorld, Reply) {
    var w1 := Others(w, c);
    (if fits && c.fate.Commits() then w1.(row := row) else w1, ReplyTo(c.fate, fits))
  }

  function Owner(row: Row, reviewer: string): string {
    if row.reviewedBy.Some? then row.reviewedBy.value else reviewer
  }

  function HandleApprove(w: LiveWorld, change: Change, reviewer: string, s: Script): LiveWorld {
    if !change.inNamespace || change.requester == reviewer then w else
    var (w1, begun) := PutRow(w, Begun(w.row, reviewer, Approve, s.now), CanBegin(w.row, Approve, s.now), s.begin);
    if !begun.Ok? then w1 else
    var owner := Owner(w1.row, reviewer);
    var (w2, applied) := Apply(w1, change, s);
    match applied
    case ApplierDead => w2
    case Uncertain => w2
    case NotApplied => PutRow(w2, CANCELLED, CanCancel(w2.row, owner), s.cancel).0
    case InEffect =>
      var (w3, recorded) := RecordDecision(w2, Success, s);
      if !recorded.Ok? then w3 else
      PutRow(w3, Finalized(w3.row, Approve, s.now), CanFinalize(w3.row, owner, Approve), s.finalize).0
  }

  function HandleReject(w: LiveWorld, change: Change, reviewer: string, s: Script): LiveWorld {
    if !change.inNamespace then w else
    var (w1, begun) := PutRow(w, Begun(w.row, reviewer, Reject, s.now), CanBegin(w.row, Reject, s.now), s.begin);
    if !begun.Ok? then w1 else
    var owner := Owner(w1.row, reviewer);
    var (w2, recorded) := RecordDecision(w1, Blocked, s);
    match recorded
    case Dead => w2
    case Error => PutRow(w2, CANCELLED, CanCancel(w2.row, owner), s.cancel).0
    case Ok => PutRow(w2, Finalized(w2.row, Reject, s.now), CanFinalize(w2.row, owner, Reject), s.finalize).0
  }

  // ---------------------------------------------------------------- runs

  datatype Step = Approves(reviewer: string, s: Script) | Rejects(reviewer: string, s: Script)

  function Take(w: LiveWorld, change: Change, step: Step): LiveWorld {
    match step
    case Approves(reviewer, s) => HandleApprove(w, change, reviewer, s)
    case Rejects(reviewer, s) => HandleReject(w, change, reviewer, s)
  }

  function After(w: LiveWorld, change: Change, run: seq<Step>): LiveWorld
    decreases |run|
  {
    if run == [] then w else After(Take(w, change, run[0]), change, run[1..])
  }
}
