/** The lifecycle of a service's two host commands under the engine's replace, update and delete rules
    (docs/adr/0042-update-in-place-command-lifecycle.md, program/adr0042.go). */
module Lifecycle {
  import opened Common

  // ---- The host ----

  /** A service's files on one disk; `secrets` is the plaintext a host can recover from secrets.age. */
  datatype Files = Files(unit: Option<string>, descriptor: Option<string>, secrets: Option<string>)

  const NO_FILES := Files(None, None, None)

  /** `nonce` is what makes two renderings of one ciphertext differ. */
  datatype Script =
    | Provision(unit: string)
    | Deprovision
    | WriteSecrets(descriptor: string, blob: string, nonce: nat)
    | WriteDescriptor(descriptor: string)
    | RemoveDescriptor
    | RemoveAgentFiles

  function Effect(s: Script, f: Files): Files {
    match s
    case Provision(u) => f.(unit := Some(u))
    case Deprovision => NO_FILES
    case WriteSecrets(d, b, _) => f.(descriptor := Some(d), secrets := Some(b))
    case WriteDescriptor(d) => f.(descriptor := Some(d), secrets := None)
    case RemoveDescriptor => f.(descriptor := None)
    case RemoveAgentFiles => f.(descriptor := None, secrets := None)
  }

  /** An address and the disk behind it: a new address may or may not be a new disk. */
  datatype Connection = Connection(address: string, disk: string)

  type Disks = map<string, Files>

  function On(disks: Disks, disk: string): Files { if disk in disks then disks[disk] else NO_FILES }

  function RunOn(disks: Disks, conn: Connection, s: Option<Script>): Disks {
    match s
    case None => disks
    case Some(script) => disks[conn.disk := Effect(script, On(disks, conn.disk))]
  }

  // ---- The engine ----

  datatype Triggers = Triggers(descriptor: string, hash: string)

  datatype Inputs = Inputs(conn: Connection, create: Script, update: Script, delete: Option<Script>,
                           triggers: Option<Triggers>)

  datatype Ignore = IgnoreTriggers | IgnoreScripts

  /** The inputs the engine diffs: an ignored property keeps its recorded value. */
  function Effective(recorded: Inputs, goal: Inputs, ignore: Ignore): Inputs {
    match ignore
    case IgnoreTriggers => goal.(triggers := recorded.triggers)
    case IgnoreScripts => goal.(create := recorded.create, update := recorded.update)
  }

  datatype Action = Create | Replace | Update | Same

  predicate Replaces(recorded: Inputs, goal: Inputs, ignore: Ignore, forced: bool) {
    forced || goal.conn != recorded.conn || Effective(recorded, goal, ignore).triggers != recorded.triggers
  }

  function Decide(recorded: Option<Inputs>, goal: Inputs, ignore: Ignore, forced: bool): Action {
    match recorded
    case None => Create
    case Some(r) => if Replaces(r, goal, ignore, forced) then Replace
                    else if Effective(r, goal, ignore) != r then Update else Same
  }

  /** A replacement runs the recorded delete first, then the new create, and records the new inputs. */
  function Step(recorded: Option<Inputs>, goal: Inputs, ignore: Ignore, forced: bool, disks: Disks): (Inputs, Disks) {
    match Decide(recorded, goal, ignore, forced)
    case Create => (goal, RunOn(disks, goal.conn, Some(goal.create)))
    case Replace =>
      (goal, RunOn(RunOn(disks, recorded.value.conn, recorded.value.delete), goal.conn, Some(goal.create)))
    case Update =>
      var e := Effective(recorded.value, goal, ignore);
      (e, RunOn(disks, e.conn, Some(e.update)))
    case Same => (recorded.value, disks)
  }

  // ---- A service's two commands ----

  datatype Spec = Removed | Present(conn: Connection, unit: string, descriptor: string, blob: Option<string>)

  /** One deploy: what is wanted, the randomness of its encryption, and which commands an operator forces. */
  datatype Deploy = Deploy(spec: Spec, nonce: nat, forceUnit: bool, forceDelivery: bool)

  datatype State = State(unit: Option<Inputs>, delivery: Option<Inputs>, disks: Disks)

  function UnitGoal(s: Spec): Inputs
    requires s.Present?
  {
    Inputs(s.conn, Provision(s.unit), Provision(s.unit), Some(Deprovision), None)
  }

  function TriggersOf(s: Spec): Option<Triggers>
    requires s.Present?
  {
    match s.blob case Some(b) => Some(Triggers(s.descriptor, b)) case None => None
  }

  /** With secrets the command has triggers and no delete; without, a delete and no triggers. */
  function DeliveryGoal(s: Spec, nonce: nat): Inputs
    requires s.Present?
  {
    match s.blob
    case Some(b) =>
      Inputs(s.conn, WriteSecrets(s.descriptor, b, nonce), WriteSecrets(s.descriptor, b, nonce), None, TriggersOf(s))
    case None =>
      Inputs(s.conn, WriteDescriptor(s.descriptor), WriteDescriptor(s.descriptor), Some(RemoveDescriptor), None)
  }

  function DeliveryIgnore(s: Spec): Ignore
    requires s.Present?
  {
    if s.blob.Some? then IgnoreScripts else IgnoreTriggers
  }

  /** The unit before the delivery that depends on it; on removal the other way round. */
  function Apply(st: State, d: Deploy): State {
    if d.spec.Removed? then
      var disks := if st.delivery.Some? then RunOn(st.disks, st.delivery.value.conn, st.delivery.value.delete)
                   else st.disks;
      State(None, None, if st.unit.Some? then RunOn(disks, st.unit.value.conn, st.unit.value.delete) else disks)
    else
      var (u, disks) := Step(st.unit, UnitGoal(d.spec), IgnoreTriggers, d.forceUnit, st.disks);
      var (v, disks') :=
        Step(st.delivery, DeliveryGoal(d.spec, d.nonce), DeliveryIgnore(d.spec), d.forceDelivery, disks);
      State(Some(u), Some(v), disks')
  }

  // ---- What a completed deploy leaves ----

  function Wanted(s: Spec): Files
    requires s.Present?
  {
    Files(Some(s.unit), Some(s.descriptor), s.blob)
  }

  /** The recorded delivery writes this spec's agent files. An earlier release may have recorded any of three
      deletes. */
  predicate RecordsDelivery(r: Inputs, s: Spec) {
    && s.Present? && r.conn == s.conn && r.delete in {None, Some(RemoveDescriptor), Some(RemoveAgentFiles)}
    && match s.blob
       case Some(b) => r.triggers == TriggersOf(s) && r.update.WriteSecrets?
                       && r.update.descriptor == s.descriptor && r.update.blob == b
       case None => r.update == WriteDescriptor(s.descriptor)
  }

  predicate RecordsUnit(r: Inputs, s: Spec) {
    s.Present? && r.conn == s.conn && r.update == Provision(s.unit) && r.delete == Some(Deprovision)
  }

  /** The engine's state and the host agree with the last deploy. */
  predicate Settled(st: State, s: Spec) {
    match s
    case Removed => st.unit.None? && st.delivery.None?
    case Present(conn, _, _, _) =>
      && st.unit.Some? && RecordsUnit(st.unit.value, s)
      && st.delivery.Some? && RecordsDelivery(st.delivery.value, s)
      && On(st.disks, conn.disk) == Wanted(s)
  }

  function DeliveryAction(st: State, d: Deploy): Action
    requires d.spec.Present?
  {
    Decide(st.delivery, DeliveryGoal(d.spec, d.nonce), DeliveryIgnore(d.spec), d.forceDelivery)
  }

  function UnitAction(st: State, d: Deploy): Action
    requires d.spec.Present?
  {
    Decide(st.unit, UnitGoal(d.spec), IgnoreTriggers, d.forceUnit)
  }

  /** Back to the secrets shape with the very triggers still recorded from before the descriptor-only deploys. */
  predicate StaleFlipBack(st: State, d: Deploy) {
    && d.spec.Present? && d.spec.blob.Some? && st.delivery.Some? && !d.forceDelivery
    && st.delivery.value.conn == d.spec.conn && st.delivery.value.triggers == TriggersOf(d.spec)
    && st.delivery.value.update.WriteDescriptor?
  }

  /** The unit is replaced in place, its delete takes the agent files along, and nothing rewrites them. */
  predicate UnitReplacedAlone(st: State, d: Deploy) {
    d.spec.Present? && UnitAction(st, d).Replace? && DeliveryAction(st, d).Same?
  }

  /** One deploy converges the host exactly when neither of the two holds. */
  lemma DeployConvergesIff(st: State, s: Spec, d: Deploy)
    requires Settled(st, s)
    ensures Settled(Apply(st, d), d.spec) <==> !StaleFlipBack(st, d) && !UnitReplacedAlone(st, d)
  {
    if d.spec.Present? {
      if s.Present? {
        Reapplied(st, s, d);
      }
    }
  }

  lemma Reapplied(st: State, s: Spec, d: Deploy)
    requires Settled(st, s) && s.Present? && d.spec.Present?
    ensures Settled(Apply(st, d), d.spec) <==> !StaleFlipBack(st, d) && !UnitReplacedAlone(st, d)
  {
    var (u, disks) := Step(st.unit, UnitGoal(d.spec), IgnoreTriggers, d.forceUnit, st.disks);
    var (v, disks') := Step(st.delivery, DeliveryGoal(d.spec, d.nonce), DeliveryIgnore(d.spec), d.forceDelivery, disks);
    assert RecordsUnit(u, d.spec);
    assert On(disks, d.spec.conn.disk).unit == Some(d.spec.unit);
  }

  /** A run of deploys; each meets the two conditions in the state it starts from. */
  function Run(st: State, ds: seq<Deploy>): State
    decreases |ds|
  {
    if ds == [] then st else Apply(Run(st, ds[..|ds| - 1]), ds[|ds| - 1])
  }

  predicate Sensible(st: State, ds: seq<Deploy>)
    decreases |ds|
  {
    ds == [] || (var before := Run(st, ds[..|ds| - 1]);
                 Sensible(st, ds[..|ds| - 1]) && !StaleFlipBack(before, ds[|ds| - 1])
                   && !UnitReplacedAlone(before, ds[|ds| - 1]))
  }

  /** After any run of such deploys the host holds the last spec: shape changes, forced replaces, removals, host
      moves. */
  lemma {:induction false} RunsConverge(st: State, s: Spec, ds: seq<Deploy>)
    requires Settled(st, s) && Sensible(st, ds)
    ensures Settled(Run(st, ds), if ds == [] then s else ds[|ds| - 1].spec)
    decreases |ds|
  {
    if ds != [] {
      var front := ds[..|ds| - 1];
      RunsConverge(st, s, front);
      DeployConvergesIff(Run(st, front), if front == [] then s else front[|front| - 1].spec, ds[|ds| - 1]);
    }
  }

  /** Removal leaves nothing of the service on its disk. */
  lemma RemovalCleans(st: State, s: Spec, d: Deploy)
    requires Settled(st, s) && s.Present? && d.spec.Removed?
    ensures On(Apply(st, d).disks, s.conn.disk) == NO_FILES
  {
  }

  /** Recorded by the current lifecycle: no delete on the secrets shape, the plain one on the other. */
  predicate Current(st: State, s: Spec) {
    && Settled(st, s) && s.Present?
    && st.unit.value.create == Provision(s.unit)
    && st.delivery.value.create == st.delivery.value.update
    && st.delivery.value.delete == (if s.blob.Some? then None else Some(RemoveDescriptor))
  }

  /** Deploying the same spec again touches neither the host nor the recorded state, whatever the new ciphertext. */
  lemma RedeployIsQuiet(st: State, s: Spec, nonce: nat)
    requires Current(st, s)
    ensures Apply(st, Deploy(s, nonce, false, false)) == st
  {
  }

  /** A host move never loses the files: both commands share the connection, so both are replaced. */
  lemma HostMoveConverges(st: State, s: Spec, d: Deploy)
    requires Settled(st, s) && s.Present? && d.spec.Present? && d.spec.conn != s.conn
    ensures Settled(Apply(st, d), d.spec)
  {
    DeployConvergesIff(st, s, d);
  }

  /** Between two secrets deploys the only change detector is the trigger: it fires exactly when content moved. */
  lemma SecretsRewrittenIff(st: State, s: Spec, d: Deploy)
    requires Current(st, s) && s.blob.Some? && d.spec.Present? && d.spec.blob.Some? && d.spec.conn == s.conn
          && !d.forceDelivery
    ensures DeliveryAction(st, d) == Replace <==> d.spec.descriptor != s.descriptor || d.spec.blob != s.blob
    ensures DeliveryAction(st, d) == Replace || DeliveryAction(st, d) == Same
  {
  }

  const NOTHING := State(None, None, map[])

  function Plain(spec: Spec, nonce: nat): Deploy { Deploy(spec, nonce, false, false) }

  lemma RunSnoc(st: State, ds: seq<Deploy>, d: Deploy)
    ensures Run(st, ds + [d]) == Apply(Run(st, ds), d)
  {
    assert (ds + [d])[..|ds|] == ds;
  }

  /** A service's first deploy leaves exactly what it wants. */
  lemma FirstDeploy(s: Spec, nonce: nat) returns (st: State)
    requires s.Present?
    ensures st == Run(NOTHING, [Plain(s, nonce)]) && Current(st, s)
  {
    RunSnoc(NOTHING, [], Plain(s, nonce));
    assert [] + [Plain(s, nonce)] == [Plain(s, nonce)];
    st := Apply(NOTHING, Plain(s, nonce));
  }

  /** The flip back really loses, for any service: with secrets, without, and with the same again leaves the host
      without them and with the other shape's descriptor. */
  lemma FlipBackLoses(conn: Connection, unit: string, descriptor: string, blob: string, bare: string)
    ensures var with, without := Present(conn, unit, descriptor, Some(blob)), Present(conn, unit, bare, None);
      On(Run(NOTHING, [Plain(with, 0), Plain(without, 1), Plain(with, 2)]).disks, conn.disk) ==
        Files(Some(unit), Some(bare), None)
  {
    var with, without := Present(conn, unit, descriptor, Some(blob)), Present(conn, unit, bare, None);
    var st1 := FirstDeploy(with, 0);
    RunSnoc(NOTHING, [Plain(with, 0)], Plain(without, 1));
    RunSnoc(NOTHING, [Plain(with, 0), Plain(without, 1)], Plain(with, 2));
    assert [Plain(with, 0)] + [Plain(without, 1)] == [Plain(with, 0), Plain(without, 1)];
    assert [Plain(with, 0), Plain(without, 1)] + [Plain(with, 2)] ==
      [Plain(with, 0), Plain(without, 1), Plain(with, 2)];
    assert StaleFlipBack(Apply(st1, Plain(without, 1)), Plain(with, 2));
  }

  /** And so does replacing only the unit: its delete takes the agent files along, and the unchanged delivery rewrites
      none. */
  lemma UnitReplaceLoses(conn: Connection, unit: string, descriptor: string, blob: string)
    ensures var with := Present(conn, unit, descriptor, Some(blob));
      On(Run(NOTHING, [Plain(with, 0), Deploy(with, 1, true, false)]).disks, conn.disk) == Files(Some(unit), None, None)
  {
    var with := Present(conn, unit, descriptor, Some(blob));
    var st1 := FirstDeploy(with, 0);
    RunSnoc(NOTHING, [Plain(with, 0)], Deploy(with, 1, true, false));
    assert [Plain(with, 0)] + [Deploy(with, 1, true, false)] == [Plain(with, 0), Deploy(with, 1, true, false)];
    assert UnitReplacedAlone(st1, Deploy(with, 1, true, false));
  }
}
