/** The queue publisher (app/services/task_processor.py): a connection, channel, exchange and
    queue set up once, guarded by an `initialized` flag, then used to publish task ids. The
    broker's side of the exchange (connections it holds open, bindings, published messages)
    is kept in ghost fields. Where the broker refuses a step is an input to the operation. */
module TaskProcessor {
  import opened Wrappers
  import opened Settings

  /** Handles returned by the broker client. A connection is told apart by its serial number. */
  datatype Connection = Connection(serial: nat)
  datatype Channel = Channel(connection: nat)
  datatype ExchangeKind = Direct
  datatype Exchange = Exchange(name: string, kind: ExchangeKind, durable: bool)
  datatype Queue = Queue(name: string, durable: bool)
  datatype Binding = Binding(queue: string, exchange: string, routingKey: string)
  datatype Message = Message(body: string, exchange: string, routingKey: string, persistent: bool)

  /** The broker calls `initialize` makes, in order; a failure names the first one that raised. */
  datatype InitStep = Connect | OpenChannel | DeclareExchange | DeclareQueue | BindQueue

  function StepIndex(s: InitStep): (i: nat)
    ensures i < 5
  {
    match s
    case Connect => 0
    case OpenChannel => 1
    case DeclareExchange => 2
    case DeclareQueue => 3
    case BindQueue => 4
  }

  /** Whether `step` completed, given the step that raised, if any. */
  predicate Completed(fault: Option<InitStep>, step: InitStep)
  {
    fault.None? || StepIndex(step) < StepIndex(fault.value)
  }

  const TasksExchangeDecl: Exchange := Exchange(TasksExchange, Direct, true)
  const TasksQueueDecl: Queue := Queue(TasksQueue, true)
  const TasksBinding: Binding := Binding(TasksQueue, TasksExchange, TasksRoutingKey)

  /** The message that carries a task id: its text as the body, persistent delivery. */
  function TaskMessage(taskId: string): Message
  {
    Message(taskId, TasksExchange, TasksRoutingKey, true)
  }

  class Processor {
    var initialized: bool
    var connection: Option<Connection>
    var channel: Option<Channel>
    var exchange: Option<Exchange>
    var queue: Option<Queue>
    /** Connections opened so far, which is also the serial of the newest one: it stands for
        the identity of the connection objects. */
    var connects: nat
    ghost var openConnections: set<nat>
    ghost var bindings: set<Binding>
    ghost var published: seq<Message>

    /** Once initialised, every handle is set, the durable exchange and queue are declared
        and bound with the routing key, and the connection is open. */
    ghost predicate Valid()
      reads this
    {
      && (connection.Some? ==> connection.value.serial <= connects)
      && (initialized ==>
            && connection.Some? && connection.value.serial in openConnections
            && channel == Some(Channel(connection.value.serial))
            && exchange == Some(TasksExchangeDecl) && queue == Some(TasksQueueDecl)
            && TasksBinding in bindings)
    }

    constructor ()
      ensures Valid()
      ensures !initialized && connection.None? && channel.None? && exchange.None? && queue.None?
      ensures connects == 0 && openConnections == {} && bindings == {} && published == []
    {
      initialized := false;
      connection, channel, exchange, queue := None, None, None, None;
      connects, openConnections, bindings, published := 0, {}, {}, [];
    }

    /** initialize: nothing to do once initialised. Otherwise connect, open a channel, declare
        the exchange and the queue and bind them, storing each handle as it arrives; only when
        all five steps succeed is the flag set, so a failure leaves it false and the next call
        starts again from a new connection. */
    method Initialize(fault: Option<InitStep>) returns (ok: bool)
      requires Valid()
      modifies this
      ensures Valid()
      ensures old(initialized) ==> ok && unchanged(this)
      ensures !old(initialized) ==> ok == fault.None? && initialized == ok
      ensures ok ==> initialized
      ensures !old(initialized) ==>
                && published == old(published)
                && (Completed(fault, Connect) ==>
                      connects == old(connects) + 1 && connection == Some(Connection(connects))
                      && openConnections == old(openConnections) + {connects})
                && (!Completed(fault, Connect) ==>
                      connects == old(connects) && connection == old(connection)
                      && openConnections == old(openConnections))
                && channel == (if Completed(fault, OpenChannel) then Some(Channel(connects)) else old(channel))
                && exchange == (if Completed(fault, DeclareExchange) then Some(TasksExchangeDecl) else old(exchange))
                && queue == (if Completed(fault, DeclareQueue) then Some(TasksQueueDecl) else old(queue))
                && bindings == (if Completed(fault, BindQueue) then old(bindings) + {TasksBinding} else old(bindings))
    {
      if initialized {
        return true;
      }
      if !Completed(fault, Connect) {
        return false;
      }
      connects := connects + 1;
      openConnections := openConnections + {connects};
      connection := Some(Connection(connects));
      if !Completed(fault, OpenChannel) {
        return false;
      }
      channel := Some(Channel(connects));
      if !Completed(fault, DeclareExchange) {
        return false;
      }
      exchange := Some(TasksExchangeDecl);
      if !Completed(fault, DeclareQueue) {
        return false;
      }
      queue := Some(TasksQueueDecl);
      if !Completed(fault, BindQueue) {
        return false;
      }
      bindings := bindings + {TasksBinding};
      initialized := true;
      ok := true;
    }

    /** enqueue: initialise first, then publish one persistent message whose body is the task
        id's text, on the configured routing key. If initialisation or the publish raises,
        nothing is published, and the handles are left as the initialisation left them. */
    method Enqueue(taskId: string, fault: Option<InitStep>, publishFails: bool) returns (ok: bool)
      requires Valid()
      modifies this
      ensures Valid()
      ensures ok <==> (old(initialized) || fault.None?) && !publishFails
      ensures published == old(published) + (if ok then [TaskMessage(taskId)] else [])
      ensures initialized == (old(initialized) || fault.None?)
      ensures old(initialized) ==>
                connects == old(connects) && connection == old(connection) && openConnections == old(openConnections)
      ensures old(initialized) ==>
                && channel == old(channel) && exchange == old(exchange) && queue == old(queue)
                && bindings == old(bindings)
      ensures !old(initialized) ==>
                && (Completed(fault, Connect) ==>
                      connects == old(connects) + 1 && connection == Some(Connection(connects))
                      && openConnections == old(openConnections) + {connects})
                && (!Completed(fault, Connect) ==>
                      connects == old(connects) && connection == old(connection)
                      && openConnections == old(openConnections))
                && channel == (if Completed(fault, OpenChannel) then Some(Channel(connects)) else old(channel))
                && exchange == (if Completed(fault, DeclareExchange) then Some(TasksExchangeDecl) else old(exchange))
                && queue == (if Completed(fault, DeclareQueue) then Some(TasksQueueDecl) else old(queue))
                && bindings == (if Completed(fault, BindQueue) then old(bindings) + {TasksBinding} else old(bindings))
    {
      var ready := Initialize(fault);
      if !ready {
        return false;
      }
      if publishFails {
        return false;
      }
      published := published + [TaskMessage(taskId)];
      ok := true;
    }

    /** close: with no connection ever made, nothing happens; otherwise the connection is closed
        and the flag cleared, while the handle stays in `connection`. */
    method Close()
      requires Valid()
      modifies this
      ensures Valid()
      ensures connection == old(connection) && channel == old(channel)
      ensures exchange == old(exchange) && queue == old(queue)
      ensures published == old(published) && bindings == old(bindings) && connects == old(connects)
      ensures old(connection).None? ==> initialized == old(initialized) && openConnections == old(openConnections)
      ensures old(connection).Some? ==>
                !initialized && openConnections == old(openConnections) - {old(connection).value.serial}
    {
      if connection.Some? {
        openConnections := openConnections - {connection.value.serial};
        initialized := false;
      }
    }
  }

  /** The class-level slot `get_task_processor` fills on first use. */
  class Registry {
    var instance: Processor?

    constructor ()
      ensures instance == null
    {
      instance := null;
    }

    /** get_task_processor: the stored instance, created fresh and uninitialised on the first call. */
    method GetTaskProcessor() returns (p: Processor)
      modifies this
      ensures instance == p
      ensures old(instance) != null ==> p == old(instance)
      ensures old(instance) == null ==>
                fresh(p) && p.Valid() && !p.initialized && p.connection.None? && p.published == []
    {
      if instance == null {
        instance := new Processor();
      }
      p := instance;
    }
  }

  /** Two calls hand out the same processor. */
  method SameProcessorTwice(r: Registry) returns (p1: Processor, p2: Processor)
    modifies r
    ensures p1 == p2 && r.instance == p1
  {
    p1 := r.GetTaskProcessor();
    p2 := r.GetTaskProcessor();
  }
}
