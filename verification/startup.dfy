/**
  The startup sequence of the message-queue trigger (`Start`): make the
  control-plane client, wait for the resource definitions, read the
  configuration, load the secrets when a secrets path is set, construct the
  backend, and hand it to the trigger manager. Every failure stops the steps
  after it; a failure to construct the backend ends the process instead of
  being returned.

  The control plane, the environment and the file system are inputs: what
  making the client and waiting would give, the three environment values as
  read, and for each path the secrets directory found there.
*/
module Startup {
  import opened Wrappers
  import opened Errors
  import Secrets
  import MessageQueue

  /** What the two control-plane calls (`MakeFissionClient`, `WaitForCRDs`) would give. */
  datatype ControlPlane = ControlPlane(makeClient: Outcome, waitForCrds: Outcome)

  /** MESSAGE_QUEUE_TYPE, MESSAGE_QUEUE_URL and MESSAGE_QUEUE_SECRETS as `os.Getenv` returns them ("" when unset). */
  datatype Environment = Environment(mqType: string, mqUrl: string, secretsPath: string)

  /** The steps of `Start` that touch the outside world, in program order. */
  datatype Step = MakeClient | WaitForCrds | ReadSecrets | NewMessageQueue | RunManager

  /** The stages whose failure `Start` returns to its caller. */
  datatype Stage = ClientCreation | CrdWait | SecretsLoading

  datatype StartOutcome =
    /** `Start` returned this error. */
    | ReturnedError(stage: Stage, err: Error)
    /** `logger.Fatal` ended the process, logging this error. */
    | Fatal(err: Error)
    /** The trigger manager was started on this backend. */
    | Running(backend: MessageQueue.Backend)

  const ClientErrorContext: string := "failed to get fission or kubernetes client"
  const CrdErrorContext: string := "error waiting for CRDs"

  /** Unicode White_Space, the set `strings.TrimSpace` removes. */
  predicate IsSpace(c: char) {
    || '\U{9}' <= c <= '\U{D}' || c == ' ' || c == '\U{85}' || c == '\U{A0}'
    || c == '\U{1680}' || '\U{2000}' <= c <= '\U{200A}' || c == '\U{2028}' || c == '\U{2029}'
    || c == '\U{202F}' || c == '\U{205F}' || c == '\U{3000}'
  }

  predicate AllSpace(s: string) {
    forall k | 0 <= k < |s| :: IsSpace(s[k])
  }

  /** `s` without its leading white space. */
  function TrimLeft(s: string): string {
    if s != [] && IsSpace(s[0]) then TrimLeft(s[1..]) else s
  }

  /** `s` without its trailing white space. */
  function TrimRight(s: string): string {
    if s != [] && IsSpace(s[|s| - 1]) then TrimRight(s[..|s| - 1]) else s
  }

  /** `strings.TrimSpace`. */
  function TrimSpace(s: string): string {
    TrimRight(TrimLeft(s))
  }

  /** `TrimLeft` keeps a suffix of its input, drops only white space, and stops at the first other character. */
  lemma {:induction false} TrimLeftDropsLeadingSpace(s: string)
    ensures |TrimLeft(s)| <= |s| && TrimLeft(s) == s[|s| - |TrimLeft(s)|..]
    ensures AllSpace(s[..|s| - |TrimLeft(s)|])
    ensures TrimLeft(s) != [] ==> !IsSpace(TrimLeft(s)[0])
  {
    if s != [] && IsSpace(s[0]) {
      TrimLeftDropsLeadingSpace(s[1..]);
    }
  }

  /** `TrimRight` keeps a prefix of its input, drops only white space, and stops at the last other character. */
  lemma {:induction false} TrimRightDropsTrailingSpace(s: string)
    ensures |TrimRight(s)| <= |s| && TrimRight(s) == s[..|TrimRight(s)|]
    ensures AllSpace(s[|TrimRight(s)|..])
    ensures TrimRight(s) != [] ==> !IsSpace(TrimRight(s)[|TrimRight(s)| - 1])
  {
    if s != [] && IsSpace(s[|s| - 1]) {
      var t := s[..|s| - 1];
      TrimRightDropsTrailingSpace(t);
      assert s[|TrimRight(s)|..] == t[|TrimRight(t)|..] + [s[|s| - 1]];
    }
  }

  /** A string trims to nothing exactly when it is all white space. */
  lemma TrimSpaceEmpty(s: string)
    ensures TrimSpace(s) == [] <==> AllSpace(s)
  {
    var l := TrimLeft(s);
    TrimLeftDropsLeadingSpace(s);
    TrimRightDropsTrailingSpace(l);
    if TrimSpace(s) == [] {
      assert AllSpace(l[0..]);
      assert s == s[..|s| - |l|] + l;
    }
  }

  /** The secrets path after trimming, as `Start` uses it. */
  function SecretsPath(env: Environment): string {
    TrimSpace(env.secretsPath)
  }

  /** The steps `Start` takes when nothing fails. */
  function PlannedSteps(env: Environment): seq<Step> {
    if SecretsPath(env) != [] then [MakeClient, WaitForCrds, ReadSecrets, NewMessageQueue, RunManager]
    else [MakeClient, WaitForCrds, NewMessageQueue, RunManager]
  }

  /** The secrets handed to the backend when loading them succeeds: none for an empty path. */
  function LoadedSecrets(env: Environment, fs: string -> Secrets.SecretsDir): Result<Option<Secrets.SecretMap>, Error> {
    if SecretsPath(env) == [] then Success(None)
    else match Secrets.SecretsOf(fs(SecretsPath(env)))
      case Success(m) => Success(Some(m))
      case Failure(err) => Failure(err)
  }

  /**
    `Start`. `steps` lists the steps taken, in order. Construction of the trigger
    manager and its blocking `Run` are the final `RunManager` step.
  */
  method Start(cp: ControlPlane, env: Environment, fs: string -> Secrets.SecretsDir, routerUrl: string,
               construct: MessageQueue.Constructors)
    returns (outcome: StartOutcome, steps: seq<Step>)
    // the steps taken are the planned ones in order, stopping at the first failure
    ensures 0 < |steps| <= |PlannedSteps(env)| && steps == PlannedSteps(env)[..|steps|]
    ensures outcome.Running? <==> steps == PlannedSteps(env)
    // a control-plane failure is returned, wrapped, before anything else is touched
    ensures outcome.ReturnedError? && outcome.stage == ClientCreation <==> cp.makeClient.Failed?
    ensures cp.makeClient.Failed? ==> outcome.err == Wrapped(ClientErrorContext, cp.makeClient.err)
    ensures outcome.ReturnedError? && outcome.stage == ClientCreation ==> steps == [MakeClient]
    ensures outcome.ReturnedError? && outcome.stage == CrdWait <==> cp.makeClient.Ok? && cp.waitForCrds.Failed?
    ensures cp.makeClient.Ok? && cp.waitForCrds.Failed? ==> outcome.err == Wrapped(CrdErrorContext, cp.waitForCrds.err)
    ensures outcome.ReturnedError? && outcome.stage == CrdWait ==> steps == [MakeClient, WaitForCrds]
    // secrets are read only for a path that is not all white space, and their error is returned as is
    ensures ReadSecrets in steps <==> cp.makeClient.Ok? && cp.waitForCrds.Ok? && SecretsPath(env) != []
    ensures outcome.ReturnedError? && outcome.stage == SecretsLoading
      <==> cp.makeClient.Ok? && cp.waitForCrds.Ok? && LoadedSecrets(env, fs).Failure?
    ensures outcome.ReturnedError? && outcome.stage == SecretsLoading ==>
      outcome.err == LoadedSecrets(env, fs).error && steps[|steps| - 1] == ReadSecrets
    // backend construction sees the environment's type and URL and the loaded secrets; its failure is fatal
    ensures outcome.Fatal? || outcome.Running? <==>
      cp.makeClient.Ok? && cp.waitForCrds.Ok? && LoadedSecrets(env, fs).Success?
    ensures outcome.Fatal? || outcome.Running? ==>
      var cfg := MessageQueue.Config(env.mqType, env.mqUrl, LoadedSecrets(env, fs).value);
      var mq := MessageQueue.NewMessageQueue(routerUrl, cfg, construct);
      && (outcome.Fatal? <==> !mq.Constructed?)
      && (outcome.Fatal? ==> Some(outcome.err) == mq.Err() && steps[|steps| - 1] == NewMessageQueue)
      && (outcome.Running? ==> outcome.backend == mq.backend)
  {
    ghost var planned := PlannedSteps(env);
    steps := [MakeClient];
    if cp.makeClient.Failed? {
      assert steps == planned[..1];
      return ReturnedError(ClientCreation, Wrapped(ClientErrorContext, cp.makeClient.err)), steps;
    }
    steps := steps + [WaitForCrds];
    if cp.waitForCrds.Failed? {
      assert steps == planned[..2];
      return ReturnedError(CrdWait, Wrapped(CrdErrorContext, cp.waitForCrds.err)), steps;
    }
    var mqType := env.mqType;
    var mqUrl := env.mqUrl;
    var secretsPath := TrimSpace(env.secretsPath);
    var secrets: Option<Secrets.SecretMap> := None;
    if |secretsPath| > 0 {
      steps := steps + [ReadSecrets];
      var loaded, _ := Secrets.ReadSecrets(fs(secretsPath));
      if loaded.Failure? {
        assert steps == planned[..3];
        return ReturnedError(SecretsLoading, loaded.error), steps;
      }
      secrets := Some(loaded.value);
    }
    steps := steps + [NewMessageQueue];
    var mq := MessageQueue.NewMessageQueue(routerUrl, MessageQueue.Config(mqType, mqUrl, secrets), construct);
    if !mq.Constructed? {
      assert steps == planned[..|steps|];
      return Fatal(mq.Err().value), steps;
    }
    steps := steps + [RunManager];
    assert steps == planned;
    outcome := Running(mq.backend);
  }

  /**
    A secrets path that is empty or all white space never reaches the file
    system: the outcome is the same whatever the file system holds, and the
    backend is given no secrets.
  */
  lemma BlankSecretsPathSkipsLoading(env: Environment, fs: string -> Secrets.SecretsDir, fs': string -> Secrets.SecretsDir)
    requires AllSpace(env.secretsPath)
    ensures LoadedSecrets(env, fs) == LoadedSecrets(env, fs') == Success(None)
  {
    TrimSpaceEmpty(env.secretsPath);
  }
}
