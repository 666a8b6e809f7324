/** The whole delivery engine. */
module System {
  // Forwarding and broadcasts over shared connections and one clock. A step is one database
  // transaction, one send, one crash, or time passing.

  import opened Types
  import opened Leases
  import opened Delivery
  import F = Forwarding
  import B = Broadcasting
  import J = Jobs
  import T = Broadcasts
  import FS = ForwardingSafety
  import BS = BroadcastingSafety

  /** `checks` are the connections that the health loop has loaded and has yet to write, and whether
      each was in error when it was loaded. */
  datatype State = State(now: Time, conns: map<ConnId, ConnStatus>, checks: map<ConnId, bool>, f: F.Forward, b: B.Board)

  datatype Step =
    | JobStep(job: F.Action)
    | AdStep(ad: B.Action)
    | Suspend(conn: ConnId)
    | LoadChecks
    | HealthCheck(conn: ConnId, healthy: bool)
    | Login(conn: ConnId, status: ConnStatus)
    | Tick(later: Time)

  /** Everything the system does on its own: workers, scheduler loops, intake, crashes, time. */
  predicate Automatic(a: Step) {
    match a
    case JobStep(j) => !F.ByCustomer(j)
    case AdStep(x) => !B.ByCustomer(x)
    case Suspend(_) => false
    case LoadChecks => true
    case HealthCheck(_, _) => true
    case Login(_, _) => false
    case Tick(_) => true
  }

  predicate Usable(conns: map<ConnId, ConnStatus>, c: ConnId) {
    c in conns && conns[c] == ConnActive
  }

  predicate AdOnConn(b: B.Board, ad: RowId, c: ConnId) {
    ad in b.ads && b.ads[ad].conn == c
  }

  /** An unauthorized report from either kind of work pauses the whole connection. */
  predicate Unauthorized(r: Report) {
    r.Refused? && r.cls == Auth
  }

  predicate JobPauses(f: F.Forward, a: F.Action, c: ConnId) {
    a.Commit? && a.task in f.hands && f.hands[a.task].Sent? && Unauthorized(f.hands[a.task].report)
    && a.task.job in f.jobs && f.jobs[a.task.job].conn == c
  }

  predicate AdPauses(b: B.Board, a: B.Action, c: ConnId) {
    a.Commit? && a.task in b.hands && b.hands[a.task].Sent? && Unauthorized(b.hands[a.task].report)
    && a.task.target in b.targets && AdOnConn(b, b.targets[a.task.target].ad, c)
  }

  predicate Pauses(s: State, a: Step, c: ConnId) {
    (a.JobStep? && JobPauses(s.f, a.job, c)) || (a.AdStep? && AdPauses(s.b, a.ad, c))
  }

  /** A job is loaded together with its connection. */
  ghost predicate JobMayRun(s: State, a: F.Action) {
    && !a.Withdraw?
    && (a.Load? && a.task.job in s.f.jobs ==> a.connActive == Usable(s.conns, s.f.jobs[a.task.job].conn))
  }

  /** A target is loaded together with its connection; targets are admitted against the work of
      both kinds. */
  ghost predicate AdMayRun(s: State, a: B.Action) {
    && !a.Withdraw?
    && (a.Load? && a.task.target in s.b.targets && s.b.targets[a.task.target].ad in s.b.ads ==>
          a.connActive == Usable(s.conns, s.b.ads[s.b.targets[a.task.target].ad].conn))
    && (a.Claim? ==> a.jobs == J.BusyOn(s.f.jobs))
  }

  ghost predicate Enabled(cfg: F.Config, s: State, a: Step) {
    match a
    case JobStep(j) => F.Enabled(cfg, s.now, s.f, j) && JobMayRun(s, j)
    case AdStep(x) => B.Enabled(cfg.settings, s.now, s.b, x) && AdMayRun(s, x)
    case Suspend(_) => true
    case LoadChecks => true
    case HealthCheck(c, _) => c in s.conns && c in s.checks
    case Login(_, _) => true
    case Tick(later) => s.now <= later && F.HeartbeatsKept(s.f, later) && B.HeartbeatsKept(s.b, later)
  }

  function Checked(conns: map<ConnId, ConnStatus>): map<ConnId, bool> {
    map c | c in conns && (conns[c] == ConnActive || conns[c] == ConnError) :: conns[c] == ConnError
  }

  /** A check writes the status only where it differs from the one it had loaded, and never looks at
      the current one. */
  function StatusAfter(current: ConnStatus, wasError: bool, healthy: bool): ConnStatus {
    if wasError != healthy then current else if healthy then ConnActive else ConnError
  }

  /** Pausing a connection stops both kinds of work on it. */
  ghost function Paused(s: State, c: ConnId): State {
    s.(conns := s.conns[c := PausedSafety], f := F.Withdrawn(s.f, c), b := B.Withdrawn(s.b, c, T.ConnectionLost))
  }

  ghost function Next(cfg: F.Config, s: State, a: Step): State
    requires Enabled(cfg, s, a)
  {
    match a
    case JobStep(j) =>
      var f' := F.Apply(cfg, s.now, s.f, j);
      if j.Commit? && Unauthorized(s.f.hands[j.task].report) then
        var c := s.f.jobs[j.task.job].conn;
        s.(conns := s.conns[c := PausedSafety], f := f', b := B.Withdrawn(s.b, c, T.ConnectionLost))
      else s.(f := f')
    case AdStep(x) =>
      var b' := B.Apply(cfg.settings, s.now, s.b, x);
      if x.Commit? && Unauthorized(s.b.hands[x.task].report) then
        var c := s.b.ads[s.b.targets[x.task.target].ad].conn;
        s.(conns := s.conns[c := PausedSafety], f := F.Withdrawn(s.f, c), b := b')
      else s.(b := b')
    case Suspend(c) => s.(f := F.Withdrawn(s.f, c), b := B.Withdrawn(s.b, c, T.AccountSuspended))
    case LoadChecks => s.(checks := Checked(s.conns))
    case HealthCheck(c, healthy) => s.(conns := s.conns[c := StatusAfter(s.conns[c], s.checks[c], healthy)], checks := s.checks - {c})
    case Login(c, status) => s.(conns := s.conns[c := status])
    case Tick(later) => s.(now := later)
  }

  ghost predicate Inv(cfg: F.Config, s: State) {
    F.Inv(cfg, s.f, s.now) && B.Inv(cfg.settings, s.b, s.now) && s.checks.Keys <= s.conns.Keys
  }

  /** A check that finds a connection changed since it was loaded writes what it finds, over whatever the
      status is by then; any other check, and loading, write no status. */
  lemma CheckWrites(cfg: F.Config, s: State, c: ConnId, healthy: bool, d: ConnId)
    requires Enabled(cfg, s, HealthCheck(c, healthy))
    ensures var s' := Next(cfg, s, HealthCheck(c, healthy));
      && s'.f == s.f && s'.b == s.b && s'.now == s.now && s'.conns.Keys == s.conns.Keys
      && (d != c && d in s.conns ==> s'.conns[d] == s.conns[d])
      && s'.conns[c] == (if s.checks[c] && healthy then ConnActive
                         else if !s.checks[c] && !healthy then ConnError else s.conns[c])
    ensures var s' := Next(cfg, s, LoadChecks);
      && s' == s.(checks := s'.checks)
      && (d in s'.checks <==> d in s.conns && (s.conns[d] == ConnActive || s.conns[d] == ConnError))
      && (d in s'.checks ==> (s'.checks[d] <==> s.conns[d] == ConnError))
  {
  }

  lemma JobStepKeeps(cfg: F.Config, s: State, j: F.Action)
    requires Inv(cfg, s) && Enabled(cfg, s, JobStep(j)) && cfg.settings.leaseTime >= 0
    ensures Inv(cfg, Next(cfg, s, JobStep(j)))
  {
    FS.StepKeeps(cfg, s.now, s.f, j);
    if j.Commit? {
      BS.WithdrawKeeps(cfg.settings, s.now, s.b, s.f.jobs[j.task.job].conn, T.ConnectionLost);
    }
  }

  lemma AdStepKeeps(cfg: F.Config, s: State, x: B.Action)
    requires Inv(cfg, s) && Enabled(cfg, s, AdStep(x)) && cfg.settings.leaseTime >= 0
    ensures Inv(cfg, Next(cfg, s, AdStep(x)))
  {
    BS.StepKeeps(cfg.settings, s.now, s.b, x);
    if x.Commit? {
      FS.WithdrawKeeps(cfg, s.now, s.f, s.b.ads[s.b.targets[x.task.target].ad].conn);
    }
  }

  lemma StepKeeps(cfg: F.Config, s: State, a: Step)
    requires Inv(cfg, s) && Enabled(cfg, s, a) && cfg.settings.leaseTime >= 0
    ensures Inv(cfg, Next(cfg, s, a))
  {
    match a
    case JobStep(j) => JobStepKeeps(cfg, s, j);
    case AdStep(x) => AdStepKeeps(cfg, s, x);
    case Suspend(c) =>
      FS.WithdrawKeeps(cfg, s.now, s.f, c);
      BS.WithdrawKeeps(cfg.settings, s.now, s.b, c, T.AccountSuspended);
    case Tick(later) =>
      FS.TimeKeeps(cfg, s.now, later, s.f);
      BS.TimeKeeps(cfg.settings, s.now, later, s.b);
    case _ =>
  }

  // ------------------------------------------------------------------------
  // Runs
  // ------------------------------------------------------------------------

  /** `states[i + 1]` follows `states[i]` by `steps[i]`. */
  ghost predicate IsRun(cfg: F.Config, states: seq<State>, steps: seq<Step>) {
    && |states| == |steps| + 1
    && forall i :: 0 <= i < |steps| ==> Follows(cfg, states, steps, i)
  }

  ghost predicate Follows(cfg: F.Config, states: seq<State>, steps: seq<Step>, i: nat)
    requires i < |steps| && |states| == |steps| + 1
  {
    Enabled(cfg, states[i], steps[i]) && states[i + 1] == Next(cfg, states[i], steps[i])
  }

  /** Nothing stored, nothing in hand or being checked; the connections and the time are arbitrary. */
  predicate Initial(s: State) {
    s.checks == map[] && s.f == F.EMPTY && s.b == B.EMPTY
  }

  lemma {:induction false} RunKeeps(cfg: F.Config, states: seq<State>, steps: seq<Step>, i: nat)
    requires IsRun(cfg, states, steps) && cfg.settings.leaseTime >= 0
    requires Initial(states[0]) || Inv(cfg, states[0])
    requires i < |states|
    ensures Inv(cfg, states[i])
  {
    if i > 0 {
      RunKeeps(cfg, states, steps, i - 1);
      assert Follows(cfg, states, steps, i - 1);
      StepKeeps(cfg, states[i - 1], steps[i - 1]);
    } else if Initial(states[0]) {
      FS.EmptyKeeps(cfg, states[0].now);
      BS.EmptyKeeps(cfg.settings, states[0].now);
    }
  }
}
