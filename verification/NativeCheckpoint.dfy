/**
 Checkpoints of a native task environment: seven directories, a service whose memory no file
 holds, and a counter of audited commands that decides whether a capture may be restored.
 */
module NativeCheckpoint {
  import opened Wrappers

  datatype Entry = File(content: string) | Link(target: string) | Folder | Special(kind: string)

  /** The entries of a directory by relative path. */
  type Tree = map<string, Entry>

  const NAMES: seq<string> := ["app", "opt", "tests", "solution", "tmp", "home", "logs"]

  datatype Mode = FullClone | DeterministicReplay | IsolatedObservation

  datatype ServiceRecord = Absent | InitialReplay | MutatedObservation

  datatype Audit = Audit(mode: Mode, complete: bool, restorable: bool, taskId: string, environmentDigest: string,
                         fingerprint: string, services: seq<string>, serviceState: ServiceRecord,
                         payloadDigest: nat, directories: seq<string>, execCount: nat)

  datatype Checkpoint = Checkpoint(audit: Audit, payload: map<string, Tree>)

  /** The template an environment is started from.  digest stands for the digest of a tree. */
  datatype Template = Template(taskId: string, environmentDigest: string, services: seq<string>,
                               digest: map<string, Tree> -> nat)

  /** The state of a started environment over a service state S. */
  datatype Env<S> = Env(template: Template, dirs: map<string, Tree>, service: S, execIndex: nat,
                        processes: set<int>, servicePids: set<int>)

  /** Where a capture is to be written: nowhere yet, within the session itself, or where
      something lies already, perhaps a whole checkpoint. */
  datatype Target = Free | InsideSession | Taken(existing: Option<Checkpoint>)

  datatype CheckpointError =
    | NotIdle
    | TargetExists
    | TargetInsideSession
    | Incomplete
    | NotRestorable
    | AnotherTask
    | AnotherEnvironment
    | AnotherServiceConfiguration
    | ServiceNotReplayable
    | PayloadChanged
    | InvalidDirectory
    | DirectoryMissing

  // ---------------------------------------------------------------- operations on an environment

  /** What can happen to an environment between start and capture.  A command may write any
      directory and change the service; when it is interrupted nothing is audited. */
  datatype Op<S> =
    | Command(dirs: map<string, Tree>, service: S, interrupted: bool)
    | Upload(dirs: map<string, Tree>)
    | Reset(dirs: map<string, Tree>)

  function After<S>(e: Env<S>, op: Op<S>): Env<S> {
    match op
    case Command(dirs, service, interrupted) =>
      e.(dirs := dirs, service := service, execIndex := if interrupted then e.execIndex else e.execIndex + 1)
    case Upload(dirs) => e.(dirs := dirs)
    case Reset(dirs) => e.(dirs := dirs, execIndex := e.execIndex + 1)
  }

  function AfterAll<S>(e: Env<S>, ops: seq<Op<S>>): Env<S> {
    if ops == [] then e else After(AfterAll(e, ops[..|ops| - 1]), ops[|ops| - 1])
  }

  predicate Audited<S>(op: Op<S>) { op.Reset? || (op.Command? && !op.interrupted) }

  /** A command ran, so the service may have been touched. */
  predicate Touched<S>(ops: seq<Op<S>>) {
    exists k :: 0 <= k < |ops| && ops[k].Command?
  }

  predicate NothingAudited<S>(ops: seq<Op<S>>) {
    forall k :: 0 <= k < |ops| ==> !Audited(ops[k])
  }

  predicate Idle<S>(e: Env<S>) { e.processes - e.servicePids == {} }

  predicate RestoreBoundaryIsIdle(processes: set<int>, servicePids: set<int>, services: seq<string>, execCount: nat) {
    processes - servicePids == {} && !(services != [] && execCount != 0)
  }

  // ---------------------------------------------------------------- capture

  /** A directory without sockets, pipes and devices. */
  function Regular(t: Tree): Tree {
    map path | path in t && !t[path].Special? :: t[path]
  }

  function PayloadOf(dirs: map<string, Tree>): map<string, Tree> {
    map name | name in dirs && name in NAMES :: Regular(dirs[name])
  }

  function AuditOf<S>(e: Env<S>, fingerprint: string): Audit {
    var touched := e.template.services != [] && e.execIndex > 0;
    Audit(
      if touched then IsolatedObservation else if e.template.services != [] then DeterministicReplay else FullClone,
      true, !touched, e.template.taskId, e.template.environmentDigest, fingerprint, e.template.services,
      if touched then MutatedObservation else if e.template.services != [] then InitialReplay else Absent,
      e.template.digest(PayloadOf(e.dirs)), NAMES, e.execIndex)
  }

  /** A checkpoint of the same state of the same template whose payload is intact. */
  predicate Matches<S>(e: Env<S>, fingerprint: string, c: Checkpoint) {
    && c.audit.complete && c.audit.taskId == e.template.taskId && c.audit.fingerprint == fingerprint
    && c.audit.environmentDigest == e.template.environmentDigest
    && c.audit.payloadDigest == e.template.digest(c.payload)
  }

  function Captured<S>(e: Env<S>, fingerprint: string, target: Target, reuse: bool)
    : Result<Checkpoint, CheckpointError>
  {
    if !Idle(e) then Failure(NotIdle)
    else if target.Taken? then
      if reuse && target.existing.Some? && Matches(e, fingerprint, target.existing.value)
      then Success(target.existing.value) else Failure(TargetExists)
    else if target.InsideSession? then Failure(TargetInsideSession)
    else Success(Checkpoint(AuditOf(e, fingerprint), PayloadOf(e.dirs)))
  }

  // ---------------------------------------------------------------- restore

  /** The checks before anything is replaced, in their order. */
  function Refusal<S>(e: Env<S>, c: Checkpoint): Option<CheckpointError> {
    if !RestoreBoundaryIsIdle(e.processes, e.servicePids, e.template.services, e.execIndex) then Some(NotIdle)
    else if !c.audit.complete then Some(Incomplete)
    else if c.audit.mode == IsolatedObservation || !c.audit.restorable then Some(NotRestorable)
    else if c.audit.taskId != e.template.taskId then Some(AnotherTask)
    else if c.audit.environmentDigest != e.template.environmentDigest then Some(AnotherEnvironment)
    else if c.audit.services != e.template.services then Some(AnotherServiceConfiguration)
    else if e.template.services != [] && c.audit.serviceState != InitialReplay then Some(ServiceNotReplayable)
    else if c.audit.payloadDigest != e.template.digest(c.payload) then Some(PayloadChanged)
    else None
  }

  /** The first k names have got their content from the payload, other directories are as before. */
  ghost predicate Replaced(before: map<string, Tree>, after: map<string, Tree>, payload: map<string, Tree>,
                           names: seq<string>, k: nat)
    requires k <= |names|
  {
    && (forall name :: name in names[..k] ==>
          name in NAMES && name in payload && name in after && after[name] == payload[name])
    && (forall name :: name !in names[..k] ==>
          (name in after <==> name in before) && (name in after ==> after[name] == before[name]))
  }

  /** What a restore that passed its checks leaves when it stops at name k: the directories before
      it are replaced and the later ones untouched.  One that may not be named is untouched too;
      one that the payload lacks is gone. */
  ghost predicate StoppedAt(before: map<string, Tree>, after: map<string, Tree>, payload: map<string, Tree>,
                            names: seq<string>, k: nat, error: CheckpointError)
  {
    && k < |names|
    && if names[k] !in NAMES then error == InvalidDirectory && Replaced(before, after, payload, names, k)
       else
         && names[k] !in payload && error == DirectoryMissing
         && names[k] !in after && Replaced(before - {names[k]}, after, payload, names, k)
  }

  lemma OneMoreReplaced(before: map<string, Tree>, after: map<string, Tree>, payload: map<string, Tree>,
                        names: seq<string>, k: nat)
    requires k < |names| && names[k] in NAMES && names[k] in payload && Replaced(before, after, payload, names, k)
    ensures Replaced(before, (after - {names[k]})[names[k] := payload[names[k]]], payload, names, k + 1)
  {
    assert names[..k + 1] == names[..k] + [names[k]];
  }

  /** The environment object. */
  class Environment<S> {
    const template: Template
    var dirs: map<string, Tree>
    var service: S
    var execIndex: nat
    var processes: set<int>
    var servicePids: set<int>

    function Now(): Env<S>
      reads this
    {
      Env(template, dirs, service, execIndex, processes, servicePids)
    }

    constructor (e: Env<S>)
      ensures Now() == e
    {
      template, dirs, service := e.template, e.dirs, e.service;
      execIndex, processes, servicePids := e.execIndex, e.processes, e.servicePids;
    }

    /** Starts a command, lets it change what it likes and waits for it.  The process is
        forgotten in either case; only a command that was not interrupted is audited. */
    method Exec(pid: int, newDirs: map<string, Tree>, newService: S, interrupted: bool)
      requires pid !in processes
      modifies this
      ensures Now() == After(old(Now()), Command(newDirs, newService, interrupted))
    {
      processes := processes + {pid};
      dirs, service := newDirs, newService;
      processes := processes - {pid};
      if !interrupted { AppendExecAudit(); }
    }

    method AppendExecAudit()
      modifies this`execIndex
      ensures execIndex == old(execIndex) + 1
    {
      execIndex := execIndex + 1;
    }

    method ResetDirs(newDirs: map<string, Tree>)
      modifies this
      ensures Now() == After(old(Now()), Reset(newDirs))
    {
      dirs := newDirs;
      AppendExecAudit();
    }

    /** Copies the directories one by one, leaving out special files. */
    method CreateTrainingCheckpoint(fingerprint: string, target: Target, reuse: bool)
      returns (r: Result<Checkpoint, CheckpointError>)
      ensures r == Captured(Now(), fingerprint, target, reuse)
    {
      if processes - servicePids != {} { return Failure(NotIdle); }
      match target
      case Taken(existing) =>
        if reuse && existing.Some? {
          if Matches(Now(), fingerprint, existing.value) { return Success(existing.value); }
        }
        return Failure(TargetExists);
      case InsideSession => return Failure(TargetInsideSession);
      case Free =>
      var payload: map<string, Tree> := map[];
      for k := 0 to |NAMES|
        invariant payload == map name | name in dirs && name in NAMES[..k] :: Regular(dirs[name])
      {
        assert NAMES[..k + 1] == NAMES[..k] + [NAMES[k]];
        if NAMES[k] in dirs { payload := payload[NAMES[k] := Regular(dirs[NAMES[k]])]; }
      }
      assert NAMES[..|NAMES|] == NAMES;
      assert payload == PayloadOf(dirs);
      r := Success(Checkpoint(AuditOf(Now(), fingerprint), payload));
    }

    /** Replaces the directories listed in the audit.  A name that is not allowed or that the
        payload lacks stops it half-way. */
    method RestoreTrainingCheckpoint(c: Checkpoint) returns (r: Result<(), CheckpointError>)
      modifies this`dirs
      ensures Refusal(old(Now()), c).Some? ==> r == Failure(Refusal(old(Now()), c).value) && dirs == old(dirs)
      ensures r.Success? <==>
                && Refusal(old(Now()), c).None?
                && forall name :: name in c.audit.directories ==> name in NAMES && name in c.payload
      ensures r.Success? ==> forall name :: name in c.audit.directories ==>
                name in c.payload && name in dirs && dirs[name] == c.payload[name]
      ensures r.Success? ==> forall name :: name !in c.audit.directories ==>
                (name in dirs <==> name in old(dirs)) && (name in dirs ==> dirs[name] == old(dirs)[name])
      ensures r.Failure? && Refusal(old(Now()), c).None? ==>
                exists k :: StoppedAt(old(dirs), dirs, c.payload, c.audit.directories, k, r.error)
    {
      hide Refusal;
      var refusal := Refusal(Now(), c);
      if refusal.Some? { return Failure(refusal.value); }
      var names := c.audit.directories;
      for k := 0 to |names|
        invariant Replaced(old(dirs), dirs, c.payload, names, k)
      {
        if names[k] !in NAMES {
          assert StoppedAt(old(dirs), dirs, c.payload, names, k, InvalidDirectory);
          return Failure(InvalidDirectory);
        }
        ghost var before := dirs;
        dirs := dirs - {names[k]};
        if names[k] !in c.payload {
          assert StoppedAt(old(dirs), dirs, c.payload, names, k, DirectoryMissing);
          return Failure(DirectoryMissing);
        }
        dirs := dirs[names[k] := c.payload[names[k]]];
        OneMoreReplaced(old(dirs), before, c.payload, names, k);
      }
      assert names[..|names|] == names;
      r := Success(());
    }
  }

  // ---------------------------------------------------------------- whole histories

  lemma {:induction false} TemplateIsKept<S>(e: Env<S>, ops: seq<Op<S>>)
    ensures AfterAll(e, ops).template == e.template
    ensures AfterAll(e, ops).processes == e.processes && AfterAll(e, ops).servicePids == e.servicePids
    ensures AfterAll(e, ops).execIndex >= e.execIndex
    ensures AfterAll(e, ops).execIndex == e.execIndex <==> NothingAudited(ops)
    ensures !Touched(ops) ==> AfterAll(e, ops).service == e.service
  {
    if ops != [] {
      var fewer := ops[..|ops| - 1];
      TemplateIsKept(e, fewer);
      if !Touched(ops) {
        forall k | 0 <= k < |fewer| ensures !fewer[k].Command? { assert fewer[k] == ops[k]; }
      }
      if NothingAudited(ops) {
        forall k | 0 <= k < |fewer| ensures !Audited(fewer[k]) { assert fewer[k] == ops[k]; }
      }
      if NothingAudited(fewer) && !Audited(ops[|ops| - 1]) {
        forall k | 0 <= k < |ops| ensures !Audited(ops[k]) { if k < |fewer| { assert fewer[k] == ops[k]; } }
      }
    }
  }

  /** A freshly started environment: nothing audited yet and no process besides the services. */
  predicate Fresh<S>(e: Env<S>) { e.execIndex == 0 && e.processes == e.servicePids }

  /** The point at which a restore may replace what is there: no command is running, and none
      was audited if a service is running. */
  predicate AtBoundary<S>(e: Env<S>) {
    e.processes <= e.servicePids && (e.template.services == [] || e.execIndex == 0)
  }

  /** What a capture written to a free target holds after the history ops. */
  function CaptureAfter<S>(start: Env<S>, ops: seq<Op<S>>, fingerprint: string): Result<Checkpoint, CheckpointError> {
    Captured(AfterAll(start, ops), fingerprint, Free, false)
  }

  /** A capture taken after any history succeeds, and its payload is the regular content of the
      directories at that moment.  Another environment of the same template accepts it exactly
      at a restore boundary, when the template has no service or nothing had been audited
      before the capture; commands that ran in a service-free environment do not matter. */
  lemma RestoreIsFaithful<S>(start: Env<S>, ops: seq<Op<S>>, fingerprint: string, other: Env<S>)
    requires Fresh(start) && other.template == start.template
    ensures CaptureAfter(start, ops, fingerprint).Success?
    ensures var e, c := AfterAll(start, ops), CaptureAfter(start, ops, fingerprint).value;
            && (Refusal(other, c).None? <==>
                AtBoundary(other) && (start.template.services == [] || NothingAudited(ops)))
            && (forall name :: name in NAMES && name in e.dirs ==>
                  name in c.payload && c.payload[name] == Regular(e.dirs[name]))
            && (forall name :: name in c.payload ==> name in NAMES && name in e.dirs)
  {
    TemplateIsKept(start, ops);
    NoneLeftIff(other.processes, other.servicePids);
  }

  lemma NoneLeftIff(a: set<int>, b: set<int>)
    ensures a - b == {} <==> a <= b
  {
    if a - b == {} {
      forall p | p in a ensures p in b { assert p !in a - b; }
    }
  }

  /** Every check counts: an acceptable checkpoint becomes unacceptable, with the error of that
      check, as soon as one thing it says of itself is changed, or its payload to one of another
      digest. */
  lemma EveryCheckCounts<S>(e: Env<S>, c: Checkpoint, text: string, services: seq<string>, payload: map<string, Tree>)
    requires Refusal(e, c).None?
    ensures Refusal(e, c.(audit := c.audit.(complete := false))) == Some(Incomplete)
    ensures Refusal(e, c.(audit := c.audit.(restorable := false))) == Some(NotRestorable)
    ensures Refusal(e, c.(audit := c.audit.(mode := IsolatedObservation))) == Some(NotRestorable)
    ensures text != c.audit.taskId ==> Refusal(e, c.(audit := c.audit.(taskId := text))) == Some(AnotherTask)
    ensures text != c.audit.environmentDigest ==>
              Refusal(e, c.(audit := c.audit.(environmentDigest := text))) == Some(AnotherEnvironment)
    ensures services != c.audit.services ==>
              Refusal(e, c.(audit := c.audit.(services := services))) == Some(AnotherServiceConfiguration)
    ensures e.template.services != [] ==>
              && Refusal(e, c.(audit := c.audit.(serviceState := MutatedObservation))) == Some(ServiceNotReplayable)
              && Refusal(e, c.(audit := c.audit.(serviceState := Absent))) == Some(ServiceNotReplayable)
    ensures e.template.digest(payload) != e.template.digest(c.payload) ==>
              Refusal(e, c.(payload := payload)) == Some(PayloadChanged)
    ensures e.template.digest(payload) == e.template.digest(c.payload) ==> Refusal(e, c.(payload := payload)) == None
  {
  }

  /** A capture can be reused under its own fingerprint, at once or after anything that leaves the
      template as it is, and not once any of what identifies it differs. */
  lemma ReuseIff<S>(e: Env<S>, later: Env<S>, fingerprint: string, text: string, payload: map<string, Tree>)
    requires Idle(e) && Idle(later) && later.template == e.template
    ensures Captured(e, fingerprint, Free, false).Success?
    ensures var c := Captured(e, fingerprint, Free, false).value;
            && Captured(later, fingerprint, Taken(Some(c)), true) == Success(c)
            && Captured(later, fingerprint, Taken(Some(c)), false) == Failure(TargetExists)
            && (text != fingerprint ==> Captured(later, text, Taken(Some(c)), true) == Failure(TargetExists))
            && Captured(later, fingerprint, Taken(Some(c.(audit := c.audit.(complete := false)))), true)
               == Failure(TargetExists)
            && (text != e.template.taskId ==>
                  Captured(later, fingerprint, Taken(Some(c.(audit := c.audit.(taskId := text)))), true)
                  == Failure(TargetExists))
            && (text != e.template.environmentDigest ==>
                  Captured(later, fingerprint, Taken(Some(c.(audit := c.audit.(environmentDigest := text)))), true)
                  == Failure(TargetExists))
            && (e.template.digest(payload) != e.template.digest(c.payload) ==>
                  Captured(later, fingerprint, Taken(Some(c.(payload := payload))), true) == Failure(TargetExists))
  {
  }

  /** The promise that a capture taken after a service could have been touched is never
      restored fails in exactly one case: every command so far was interrupted before its
      audit, and no directory was reset. */
  lemma TouchedCaptureEscapesIff<S>(start: Env<S>, ops: seq<Op<S>>, fingerprint: string)
    requires Fresh(start) && start.template.services != [] && Touched(ops)
    ensures CaptureAfter(start, ops, fingerprint).Success?
    ensures (exists other: Env<S> :: other.template == start.template
               && Refusal(other, CaptureAfter(start, ops, fingerprint).value).None?) <==> NothingAudited(ops)
  {
    TemplateIsKept(start, ops);
    if NothingAudited(ops) {
      assert Refusal(start, CaptureAfter(start, ops, fingerprint).value).None?;
    }
  }

  /** Such a history: one interrupted command changes the service, the capture is accepted, and
      the restored environment has the initial service instead. */
  lemma InterruptedCommandEscapes(template: Template, dirs: map<string, Tree>, fingerprint: string)
    requires template.services != []
    ensures var start := Env(template, dirs, 0, 0, {}, {});
            var ops := [Command(dirs, 1, true)];
            && Touched(ops) && AfterAll(start, ops).service != start.service
            && CaptureAfter(start, ops, fingerprint).Success?
            && Refusal(start, CaptureAfter(start, ops, fingerprint).value).None?
  {
    var start := Env(template, dirs, 0, 0, {}, {});
    var ops := [Command(dirs, 1, true)];
    assert ops[..0] == [] && ops[0].Command?;
    assert AfterAll(start, ops) == After(start, ops[0]);
  }

  /** When the promise holds, the service of an accepted capture is the initial one. */
  lemma AcceptedServiceIsInitial<S>(start: Env<S>, ops: seq<Op<S>>, fingerprint: string, other: Env<S>)
    requires Fresh(start) && other.template == start.template && start.template.services != []
    requires Touched(ops) ==> !NothingAudited(ops)
    requires CaptureAfter(start, ops, fingerprint).Success?
    requires Refusal(other, CaptureAfter(start, ops, fingerprint).value).None?
    ensures AfterAll(start, ops).service == start.service
  {
    TemplateIsKept(start, ops);
  }

  /** Capture and restore end to end: after any history, a restore into another environment of
      the template is accepted exactly at a boundary as above and makes all seven directories
      equal to what they were, special files apart.  Unless a command ran without being
      audited, a service that starts in the same state is in its captured state too. */
  method CaptureAndRestore<S>(start: Env<S>, ops: seq<Op<S>>, fingerprint: string, other: Env<S>)
    returns (accepted: bool, restored: map<string, Tree>, service: S)
    requires Fresh(start) && other.template == start.template
    ensures accepted <==>
              && AtBoundary(other) && (start.template.services == [] || NothingAudited(ops))
              && forall name :: name in NAMES ==> name in AfterAll(start, ops).dirs
    ensures accepted ==> forall name :: name in NAMES ==>
              && name in restored && name in AfterAll(start, ops).dirs
              && restored[name] == Regular(AfterAll(start, ops).dirs[name])
              && (forall path :: path in restored[name] <==>
                    path in AfterAll(start, ops).dirs[name] && !AfterAll(start, ops).dirs[name][path].Special?)
              && (forall path :: path in restored[name] ==>
                    restored[name][path] == AfterAll(start, ops).dirs[name][path])
    ensures accepted && start.template.services != [] && (Touched(ops) ==> !NothingAudited(ops))
            && other.service == start.service ==>
              service == AfterAll(start, ops).service
  {
    TemplateIsKept(start, ops);
    RestoreIsFaithful(start, ops, fingerprint, other);
    var source := new Environment(AfterAll(start, ops));
    var checkpoint := source.CreateTrainingCheckpoint(fingerprint, Free, false);
    var target := new Environment(other);
    var r := target.RestoreTrainingCheckpoint(checkpoint.value);
    accepted, restored, service := r.Success?, target.dirs, target.service;
  }
}
