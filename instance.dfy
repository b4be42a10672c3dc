/**
 * The lifecycle of one syslog client instance (class `SyslogClient`,
 * src/main.ts, lines 12-88): the transport handle it owns, the status it last
 * reported, the configuration it stores, the outbound queue and the log lines
 * it emits.
 */
module Instance {
  import opened Wrappers
  import opened Trim
  import opened Options

  /** The host platform's instance status values. */
  datatype InstanceStatus = Ok | Connecting | Disconnected | ConnectionFailure | UnknownError | BadConfig

  /** One `updateStatus(status, message?)` call. */
  datatype StatusReport = StatusReport(status: InstanceStatus, message: Option<string>)

  datatype LogLevel = Debug | Warn | Error

  /** One `log(level, text)` call. */
  datatype LogEntry = LogEntry(level: LogLevel, text: string)

  /**
   * A transport created by `createClient(host, options)`. The library is
   * opaque; a handle is identified by the number of handles created before it.
   */
  datatype Handle = Handle(id: nat, host: string, options: ClientOptions)

  /** A queued send: the already-trimmed message and the caller's options. */
  datatype Task = Task(message: string, options: MessageOptions)

  /** One call of the transport's `log(message, options, callback)`. */
  datatype Send = Send(handle: Handle, message: string, options: MessageOptions)

  /** The fields of a JavaScript `Error` that the error handler reads, already rendered as text. */
  datatype JsError = JsError(name: string, message: string, cause: string, stack: string)

  /** `ends` is a suffix of `s`. */
  predicate EndsWith(s: string, ends: string) {
    |ends| <= |s| && s[|s| - |ends|..] == ends
  }

  /** The warning for a message dropped because no transport exists; it ends with the message. */
  function NotInitialisedText(message: string): (t: string)
    ensures EndsWith(t, message)
  {
    "Syslog client not initialised.\nCould not send: " + message
  }

  /** The debug line for a message the transport accepted; it ends with the message. */
  function SentText(message: string): (t: string)
    ensures EndsWith(t, message)
  {
    "Message sent: " + message
  }

  /**
   * The warning for a message the transport reported as failed. `detail` is
   * the JSON rendering of the error. The message follows a fixed header.
   */
  function SendFailureText(message: string, detail: string): (t: string)
    ensures |SendFailureHeader| + |message| <= |t|
    ensures t[|SendFailureHeader|..|SendFailureHeader| + |message|] == message
  {
    SendFailureHeader + message + "\n" + detail
  }

  const SendFailureHeader: string := "Message Send Failure:\nMessage: "

  /** The text both the close handler's log line and its status message carry. */
  const ClientClosed: string := "Client Closed"

  /** The status message reported when the configuration has no host. */
  const NoHost: string := "No Host"

  /** The error line logged by the transport's error handler; it starts with the error's name. */
  function ErrorEventText(e: JsError): (t: string)
    ensures IsPrefix(e.name, t)
  {
    e.name + ": " + e.message + "\n" + e.cause + "\n" + e.stack
  }

  /** The debug line `destroy` logs: the instance id right after `"destroy "`, and the label at the end. */
  function DestroyText(instanceId: string, instanceLabel: string): (t: string)
    ensures |"destroy "| + |instanceId| <= |t|
    ensures t[|"destroy "|..|"destroy "| + |instanceId|] == instanceId
    ensures EndsWith(t, instanceLabel)
  {
    "destroy " + instanceId + ":" + instanceLabel
  }

  class SyslogClient {
    /** The instance id and label the host platform assigns. */
    const instanceId: string
    const instanceLabel: string

    /** The stored configuration; unset until `configUpdated` first runs. */
    var config: Option<ModuleConfig>
    /** The transport handle; unset until the first transport is created, and never unset afterwards. */
    var syslogClient: Option<Handle>
    /** The outbound FIFO queue of sends not yet started. */
    var queue: seq<Task>
    /** The last status reported to the host platform, if any. */
    var status: Option<StatusReport>
    /** Every line logged, in order. */
    var logs: seq<LogEntry>
    /** The sends handed to transports, in order. */
    var sent: seq<Send>
    /** The sends whose completion callback has not yet fired, in the order they were started. */
    var awaiting: seq<Send>
    /** How many transports have been created; the next one gets this id. */
    var created: nat
    /** The ids of the transports closed, in the order they were closed. */
    ghost var closed: seq<nat>

    /**
     * The state invariant: the handle, once set, is the newest transport;
     * every transport it replaced was closed; a send is queued only while a
     * transport exists.
     */
    ghost predicate Valid()
      reads this
    {
      && (syslogClient.Some? <==> created > 0)
      && (syslogClient.Some? ==> syslogClient.value.id == created - 1)
      && (forall i :: 0 <= i < |closed| ==> closed[i] < created)
      && (forall h :: 0 <= h < created - 1 ==> h in closed)
      && (queue != [] ==> syslogClient.Some?)
      && (forall j :: 0 <= j < |awaiting| ==> awaiting[j] in sent)
    }

    /** The ids closed by a call that closes the handle present in the old state, if any. */
    twostate function ClosedByCall(): seq<nat>
      reads this
    {
      if old(syslogClient).Some? then old(closed) + [old(syslogClient).value.id] else old(closed)
    }

    constructor (instanceId: string, instanceLabel: string)
      ensures Valid()
      ensures this.instanceId == instanceId && this.instanceLabel == instanceLabel
      ensures config == None && syslogClient == None && status == None
      ensures queue == [] && logs == [] && sent == [] && awaiting == [] && created == 0 && closed == []
    {
      this.instanceId := instanceId;
      this.instanceLabel := instanceLabel;
      config := None;
      syslogClient := None;
      queue := [];
      status := None;
      logs := [];
      sent := [];
      awaiting := [];
      created := 0;
      closed := [];
    }

    /**
     * `logMessage`, given the text variable interpolation produced. The text
     * is trimmed; with a transport, one task carrying it and the caller's
     * options is appended to the queue; without one, the message is dropped
     * with exactly one warning. Nothing else changes.
     */
    method LogMessage(msg: string, options: MessageOptions)
      requires Valid()
      modifies this
      ensures Valid()
      ensures old(syslogClient).Some? ==>
                queue == old(queue) + [Task(Trimmed(msg), options)] && logs == old(logs)
      ensures old(syslogClient).None? ==>
                queue == old(queue) && logs == old(logs) + [LogEntry(LogLevel.Warn, NotInitialisedText(Trimmed(msg)))]
      ensures syslogClient == old(syslogClient) && status == old(status) && config == old(config)
      ensures sent == old(sent) && awaiting == old(awaiting) && created == old(created) && closed == old(closed)
    {
      var message := TrimTrailingNewlines(msg);
      if syslogClient.Some? {
        queue := queue + [Task(message, options)];
      } else {
        logs := logs + [LogEntry(LogLevel.Warn, NotInitialisedText(message))];
      }
    }

    /**
     * The queue starting its oldest task: the task hands its message and
     * options to the instance's current transport.
     */
    method RunNextTask() returns (task: Task)
      requires Valid() && queue != []
      modifies this
      ensures Valid()
      ensures task == old(queue)[0] && queue == old(queue)[1..]
      ensures sent == old(sent) + [Send(old(syslogClient).value, task.message, task.options)]
      ensures awaiting == old(awaiting) + [Send(old(syslogClient).value, task.message, task.options)]
      ensures syslogClient == old(syslogClient) && status == old(status) && config == old(config)
      ensures logs == old(logs) && created == old(created) && closed == old(closed)
    {
      task := queue[0];
      queue := queue[1..];
      var send := Send(syslogClient.value, task.message, task.options);
      sent := sent + [send];
      awaiting := awaiting + [send];
    }

    /**
     * The transport's completion callback for the started send `awaiting[i]`:
     * a warning naming that send's message on failure, a debug line naming it
     * on success, and no change to status or queue. Each send's callback
     * fires once, so the send stops awaiting.
     */
    method OnSendComplete(i: nat, error: Option<string>)
      requires Valid() && i < |awaiting|
      modifies this
      ensures Valid()
      ensures error.Some? ==> logs == old(logs) + [LogEntry(LogLevel.Warn, SendFailureText(old(awaiting)[i].message, error.value))]
      ensures error.None? ==> logs == old(logs) + [LogEntry(LogLevel.Debug, SentText(old(awaiting)[i].message))]
      ensures awaiting == old(awaiting)[..i] + old(awaiting)[i + 1..]
      ensures queue == old(queue) && status == old(status)
      ensures syslogClient == old(syslogClient) && config == old(config)
      ensures sent == old(sent) && created == old(created) && closed == old(closed)
    {
      var message := awaiting[i].message;
      if error.Some? {
        logs := logs + [LogEntry(LogLevel.Warn, SendFailureText(message, error.value))];
      } else {
        logs := logs + [LogEntry(LogLevel.Debug, SentText(message))];
      }
      awaiting := awaiting[..i] + awaiting[i + 1..];
    }

    /**
     * What `setupSyslogClient(config)` does to the state: the previous
     * transport, if any, is closed exactly once, then a new one is created
     * for the host with the options built from the configuration, and the
     * status becomes Ok.
     */
    twostate predicate Reconnected(config: ModuleConfig)
      reads this
    {
      && closed == ClosedByCall()
      && created == old(created) + 1
      && syslogClient == Some(Handle(old(created), config.host, BuildClientOptions(config)))
      && status == Some(StatusReport(Ok, None))
    }

    method SetupSyslogClient(config: ModuleConfig)
      requires Valid()
      modifies this
      ensures Valid()
      ensures Reconnected(config)
      ensures queue == old(queue) && logs == old(logs) && sent == old(sent) && awaiting == old(awaiting)
      ensures this.config == old(this.config)
    {
      if syslogClient.Some? {
        closed := closed + [syslogClient.value.id];
      }
      syslogClient := Some(Handle(created, config.host, BuildClientOptions(config)));
      created := created + 1;
      status := Some(StatusReport(Ok, None));
    }

    /**
     * What `configUpdated(config)` does to the state: the queue is cleared
     * and the configuration stored. With a host the transport is replaced as
     * `Reconnected` says; without one the status becomes BadConfig "No Host"
     * and the transport is neither closed nor unset.
     */
    twostate predicate Configured(config: ModuleConfig)
      reads this
    {
      && queue == []
      && this.config == Some(config)
      && (config.host != "" ==> Reconnected(config))
      && (config.host == "" ==>
            && status == Some(StatusReport(BadConfig, Some(NoHost)))
            && syslogClient == old(syslogClient)
            && closed == old(closed)
            && created == old(created))
      && logs == old(logs)
      && sent == old(sent)
      && awaiting == old(awaiting)
    }

    method ConfigUpdated(config: ModuleConfig)
      requires Valid()
      modifies this
      ensures Valid()
      ensures Configured(config)
    {
      queue := [];
      this.config := Some(config);
      if config.host != "" {
        SetupSyslogClient(config);
      } else {
        status := Some(StatusReport(BadConfig, Some(NoHost)));
      }
    }

    /** `init(config)`: applies the first configuration exactly as `configUpdated` does. */
    method Init(config: ModuleConfig)
      requires Valid()
      modifies this
      ensures Valid()
      ensures Configured(config)
    {
      ConfigUpdated(config);
    }

    /**
     * `destroy`: logs the instance, clears the queue, closes the current
     * transport if there is one without unsetting it, and reports
     * Disconnected.
     */
    method Destroy()
      requires Valid()
      modifies this
      ensures Valid()
      ensures logs == old(logs) + [LogEntry(LogLevel.Debug, DestroyText(instanceId, instanceLabel))]
      ensures queue == []
      ensures closed == ClosedByCall()
      ensures syslogClient == old(syslogClient)
      ensures status == Some(StatusReport(Disconnected, None))
      ensures config == old(config) && sent == old(sent) && awaiting == old(awaiting) && created == old(created)
    {
      logs := logs + [LogEntry(LogLevel.Debug, DestroyText(instanceId, instanceLabel))];
      queue := [];
      if syslogClient.Some? {
        closed := closed + [syslogClient.value.id];
      }
      status := Some(StatusReport(Disconnected, None));
    }

    /**
     * The handler registered for a transport's `close` event: a warning and
     * the status Disconnected "Client Closed". It does not check which
     * transport fired, so a replaced one's event reports Disconnected too;
     * it is registered only on a transport that has been created.
     */
    method OnClose()
      requires Valid() && created > 0
      modifies this
      ensures Valid()
      ensures logs == old(logs) + [LogEntry(LogLevel.Warn, ClientClosed)]
      ensures status == Some(StatusReport(Disconnected, Some(ClientClosed)))
      ensures queue == old(queue) && syslogClient == old(syslogClient) && config == old(config)
      ensures sent == old(sent) && awaiting == old(awaiting) && created == old(created) && closed == old(closed)
    {
      logs := logs + [LogEntry(LogLevel.Warn, ClientClosed)];
      status := Some(StatusReport(Disconnected, Some(ClientClosed)));
    }

    /**
     * The handler registered for a transport's `error` event: an error line
     * and the status UnknownError with the error's name as message. It is
     * registered only on a transport that has been created.
     */
    method OnError(e: JsError)
      requires Valid() && created > 0
      modifies this
      ensures Valid()
      ensures logs == old(logs) + [LogEntry(LogLevel.Error, ErrorEventText(e))]
      ensures status == Some(StatusReport(UnknownError, Some(e.name)))
      ensures queue == old(queue) && syslogClient == old(syslogClient) && config == old(config)
      ensures sent == old(sent) && awaiting == old(awaiting) && created == old(created) && closed == old(closed)
    {
      logs := logs + [LogEntry(LogLevel.Error, ErrorEventText(e))];
      status := Some(StatusReport(UnknownError, Some(e.name)));
    }
  }

  /**
   * A client of the class: a message logged before configuration is dropped
   * with a warning; after configuration it is queued trimmed; configuring
   * again clears the queue and closes the first transport once before the
   * second is created.
   */
  method LifecycleScenario(first: ModuleConfig, second: ModuleConfig, options: MessageOptions)
    requires first.host != "" && second.host != ""
  {
    var c := new SyslogClient("syslog-1", "syslog");
    c.LogMessage("early\n", options);
    assert Trimmed("early\n") == "earl" by { assert TrimStep("early\n") == "earl"; }
    assert c.queue == [] && c.logs == [LogEntry(LogLevel.Warn, NotInitialisedText("earl"))];

    c.ConfigUpdated(first);
    assert c.syslogClient == Some(Handle(0, first.host, BuildClientOptions(first)));
    assert c.status == Some(StatusReport(Ok, None));

    c.LogMessage("hello\n\n", options);
    assert Trimmed("hello\n\n") == "hello" by { assert TrimStep("hello\n\n") == "hello"; }
    assert c.queue == [Task("hello", options)];

    c.ConfigUpdated(second);
    assert c.queue == [] && c.closed == [0];
    assert c.syslogClient == Some(Handle(1, second.host, BuildClientOptions(second)));

    c.Destroy();
    assert c.closed == [0, 1] && c.syslogClient.Some?;
    assert c.status == Some(StatusReport(Disconnected, None));
  }

  /**
   * A client of the class: a queued message is sent on the current
   * transport, and its failure callback logs a warning naming that message
   * while the status stays Ok.
   */
  method SendFailureScenario(config: ModuleConfig, options: MessageOptions)
    requires config.host != ""
  {
    var c := new SyslogClient("syslog-1", "syslog");
    c.ConfigUpdated(config);
    c.LogMessage("hello", options);
    var task := c.RunNextTask();
    assert c.queue == [] && task == Task("hello", options);
    assert c.awaiting == [Send(Handle(0, config.host, BuildClientOptions(config)), "hello", options)];
    c.OnSendComplete(0, Some("{}"));
    assert c.logs == [LogEntry(LogLevel.Warn, SendFailureText("hello", "{}"))];
    assert c.awaiting == [] && c.status == Some(StatusReport(Ok, None));
  }

  /**
   * A client of the class: applying a configuration without a host reports
   * BadConfig but keeps the previous transport, so a later message is still
   * queued and sent on that transport.
   */
  method StaleTransportScenario(first: ModuleConfig, second: ModuleConfig, options: MessageOptions)
    requires first.host != "" && second.host == ""
  {
    var c := new SyslogClient("syslog-1", "syslog");
    c.ConfigUpdated(first);
    c.ConfigUpdated(second);
    assert c.status == Some(StatusReport(BadConfig, Some(NoHost)));
    assert c.closed == [];
    c.LogMessage("hello", options);
    assert c.queue == [Task("hello", options)];
    var task := c.RunNextTask();
    assert c.sent == [Send(Handle(0, first.host, BuildClientOptions(first)), "hello", options)];
  }
}
