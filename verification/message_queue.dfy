/**
  The backend factory of the message-queue trigger (`newMessageQueue`): the
  configured type string picks exactly one of three backend constructors by an
  exact, case-sensitive match; any other string is rejected with an error that
  names it.

  The constructors (`nats.New`, `azurequeuestorage.New`, `kafka.New`) are not
  modelled; they are one function parameter saying, for a backend kind, router
  URL and configuration, whether construction succeeds.
*/
module MessageQueue {
  import opened Wrappers
  import opened Errors
  import Secrets

  /**
    The three accepted values of the message-queue type (`fv1.MessageQueueTypeNats`,
    `fv1.MessageQueueTypeASQ`, `fv1.MessageQueueTypeKafka`). Nothing below depends
    on the letters, only on the three being different.
  */
  const MessageQueueTypeNats: string := "nats-streaming"
  const MessageQueueTypeASQ: string := "azure-storage-queue"
  const MessageQueueTypeKafka: string := "kafka"

  datatype Kind = Nats | AzureQueueStorage | Kafka

  /** The type string that selects a kind. */
  function TypeName(k: Kind): string {
    match k
    case Nats => MessageQueueTypeNats
    case AzureQueueStorage => MessageQueueTypeASQ
    case Kafka => MessageQueueTypeKafka
  }

  /** `messageQueue.Config`; `secrets` is `None` for a nil map. */
  datatype Config = Config(mqType: string, url: string, secrets: Option<Secrets.SecretMap>)

  /** A constructed backend, identified by the constructor that built it and what that constructor was given. */
  datatype Backend = Backend(kind: Kind, routerUrl: string, cfg: Config)

  /** The backend constructors: whether the constructor of a kind succeeds on a router URL and a configuration. */
  type Constructors = (Kind, string, Config) -> Outcome

  datatype Construction =
    | Constructed(backend: Backend)
    | ConstructorFailed(kind: Kind, err: Error)
    | Unsupported(mqType: string)
  {
    /** The error `newMessageQueue` returns, `None` for nil. */
    function Err(): Option<Error> {
      match this
      case Constructed(_) => None
      case ConstructorFailed(_, err) => Some(err)
      case Unsupported(t) => Some(UnsupportedTypeError(t))
    }

    /** The constructor that was invoked, if any. */
    function Invoked(): Option<Kind> {
      match this
      case Constructed(b) => Some(b.kind)
      case ConstructorFailed(k, _) => Some(k)
      case Unsupported(_) => None
    }
  }

  /** The kind a type string selects, if any: the inverse of `TypeName`. */
  function KindOf(mqType: string): (k: Option<Kind>)
    ensures k.Some? ==> TypeName(k.value) == mqType
    ensures k.None? ==> forall kind :: TypeName(kind) != mqType
  {
    if mqType == MessageQueueTypeNats then Some(Nats)
    else if mqType == MessageQueueTypeASQ then Some(AzureQueueStorage)
    else if mqType == MessageQueueTypeKafka then Some(Kafka)
    else None
  }

  /** Every kind is selected by its own type string and by no other kind's. */
  lemma KindOfTypeName(k: Kind)
    ensures KindOf(TypeName(k)) == Some(k)
  {
  }

  /**
    `newMessageQueue`: invokes the constructor of the kind the type string names,
    with the router URL and the configuration unchanged, or rejects the type.
  */
  function NewMessageQueue(routerUrl: string, cfg: Config, construct: Constructors): (r: Construction)
    ensures r.Unsupported? <==> forall k :: TypeName(k) != cfg.mqType
    ensures r.Invoked().Some? ==> TypeName(r.Invoked().value) == cfg.mqType
    ensures match r
      case Constructed(b) => b.routerUrl == routerUrl && b.cfg == cfg && construct(b.kind, routerUrl, cfg) == Ok
      case ConstructorFailed(k, err) => construct(k, routerUrl, cfg) == Failed(err)
      case Unsupported(t) => t == cfg.mqType
    ensures r.Err().None? <==> r.Constructed?
  {
    match KindOf(cfg.mqType)
    case None => Unsupported(cfg.mqType)
    case Some(k) =>
      match construct(k, routerUrl, cfg)
      case Ok => Constructed(Backend(k, routerUrl, cfg))
      case Failed(err) => ConstructorFailed(k, err)
  }

  /**
    Which constructor runs, if any, depends on the type string alone among the
    configuration's fields; the URL and secrets reach the constructor but play no
    part in the choice.
  */
  lemma DispatchIgnoresUrlAndSecrets(routerUrl: string, cfg: Config, cfg': Config, construct: Constructors)
    requires cfg.mqType == cfg'.mqType
    ensures NewMessageQueue(routerUrl, cfg, construct).Invoked() == NewMessageQueue(routerUrl, cfg', construct).Invoked()
    ensures NewMessageQueue(routerUrl, cfg, construct).Unsupported? == NewMessageQueue(routerUrl, cfg', construct).Unsupported?
  {
  }

  /** `errors.Errorf("no supported message queue type found for %q", mqType)`. */
  function UnsupportedTypeError(mqType: string): (err: Error)
    ensures err.Formatted?
    ensures |err.message| > |mqType| && err.message[|err.message| - |mqType| - 1..|err.message| - 1] == mqType
  {
    Formatted("no supported message queue type found for " + GoQuote(mqType))
  }

  /** The `%q` verb, for strings that need no escaping. */
  function GoQuote(s: string): string {
    "\"" + s + "\""
  }
}
