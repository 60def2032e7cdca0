/** `get_network_device_info` (netiV3/app/logic.py): fetch a device's configuration
    over SSH and map session failures to messages. */
module Device {
  import opened Wrappers
  import opened Json
  import Process

  /** The classes of exception the handlers tell apart. paramiko's
      `AuthenticationException` is a subclass of `SSHException`; anything else
      (a socket error, a decoding error, ...) is neither. */
  datatype ExceptionClass = AuthenticationException | OtherSshException | NonSshException

  datatype Raised = Raised(cls: ExceptionClass, msg: string)

  /** `isinstance(e, paramiko.SSHException)` */
  predicate IsSshException(c: ExceptionClass) {
    c == AuthenticationException || c == OtherSshException
  }

  /** What `client.connect(...)` did with the host and credentials. */
  datatype ConnectOutcome = Connected | ConnectRaised(error: Raised)

  /** What `client.exec_command(command)` and reading both streams gave: the decoded
      output and error text, or the exception raised on the way. */
  datatype ExecOutcome = Streams(out: string, err: string) | ExecRaised(error: Raised)

  const AuthFailedMessage := "Authentication failed. " + "Please check username and password."
  const SshErrorPrefix := "SSH connection error: "

  /** The introspection command of each supported device type. */
  function DeviceCommand(deviceType: string): (c: Option<string>)
    ensures c.Some? <==> deviceType in {"mikrotik", "cisco_ios"}
    ensures deviceType == "mikrotik" ==> c == Some("/export")
    ensures deviceType == "cisco_ios" ==> c == Some("show running-config")
  {
    if deviceType == "mikrotik" then Some("/export")
    else if deviceType == "cisco_ios" then Some("show running-config")
    else None
  }

  /** The three `except` clauses, tried in order: authentication first, then any
      other SSH exception, then the catch-all. An authentication failure, although
      it is also an SSH exception, gets its own message, and that message is never
      produced for any other exception. */
  function HandlerMessage(e: Raised): (m: string)
    ensures m == AuthFailedMessage <==> e.cls == AuthenticationException
    ensures e.cls == OtherSshException ==> m == SshErrorPrefix + e.msg
    ensures !IsSshException(e.cls) ==> m == Process.UnexpectedPrefix + e.msg
  {
    if e.cls == AuthenticationException then AuthFailedMessage
    else if IsSshException(e.cls) then
      var m := SshErrorPrefix + e.msg;
      // The message constant is written as two literals so that its first
      // characters can be compared directly.
      assert m[0] != AuthFailedMessage[0];
      m
    else
      var m := Process.UnexpectedPrefix + e.msg;
      assert m[1] != AuthFailedMessage[1];
      m
  }

  /** `get_network_device_info`. `connect` and `exec` stand for the remote device.
      The connection comes first; the device type is checked only once it has
      succeeded. Text on the error stream makes the call fail whatever the output
      stream holds. */
  function GetNetworkDeviceInfo(deviceType: string, host: string, username: string, password: string,
                                connect: (string, string, string) -> ConnectOutcome,
                                exec: string -> ExecOutcome): (r: map<string, Value>)
    ensures r.Keys == {"status", "config_data"} || r.Keys == {"status", "message"}
    ensures IsCompleted(r) <==>
              connect(host, username, password).Connected? && DeviceCommand(deviceType).Some?
              && exec(DeviceCommand(deviceType).value).Streams?
              && exec(DeviceCommand(deviceType).value).err == ""
    ensures IsCompleted(r) ==>
              r == CompletedDict("config_data", Str(exec(DeviceCommand(deviceType).value).out))
    ensures connect(host, username, password).ConnectRaised? ==>
              r == ErrorDict(HandlerMessage(connect(host, username, password).error))
    ensures connect(host, username, password).Connected? && DeviceCommand(deviceType).None? ==>
              r == ErrorDict("Unsupported device type: " + deviceType)
    ensures connect(host, username, password).Connected? && DeviceCommand(deviceType).Some? ==>
              match exec(DeviceCommand(deviceType).value)
              case Streams(out, err) => err != "" ==> r == ErrorDict(err)
              case ExecRaised(e) => r == ErrorDict(HandlerMessage(e))
  {
    match connect(host, username, password)
    case ConnectRaised(e) => ErrorDict(HandlerMessage(e))
    case Connected =>
      match DeviceCommand(deviceType)
      case None => ErrorDict("Unsupported device type: " + deviceType)
      case Some(command) =>
        match exec(command)
        case ExecRaised(e) => ErrorDict(HandlerMessage(e))
        case Streams(configData, errorData) =>
          if errorData != "" then ErrorDict(errorData)
          else CompletedDict("config_data", Str(configData))
  }

  /** Error-stream text wins even when the configuration output is non-empty. */
  lemma ErrorStreamWins(deviceType: string, host: string, username: string, password: string,
                        connect: (string, string, string) -> ConnectOutcome,
                        exec: string -> ExecOutcome)
    requires connect(host, username, password).Connected? && DeviceCommand(deviceType).Some?
    requires exec(DeviceCommand(deviceType).value).Streams?
    requires exec(DeviceCommand(deviceType).value).err != ""
    ensures var r := GetNetworkDeviceInfo(deviceType, host, username, password, connect, exec);
            r["status"] == Str("error") && r["message"] == Str(exec(DeviceCommand(deviceType).value).err)
            && "config_data" !in r
  {
  }

  /** An unsupported device type runs no command: the answer does not depend on the
      session's command behaviour (the connection itself is still attempted). */
  lemma UnsupportedTypeRunsNoCommand(deviceType: string, host: string, username: string, password: string,
                                     connect: (string, string, string) -> ConnectOutcome,
                                     e1: string -> ExecOutcome, e2: string -> ExecOutcome)
    requires deviceType !in {"mikrotik", "cisco_ios"}
    ensures GetNetworkDeviceInfo(deviceType, host, username, password, connect, e1)
         == GetNetworkDeviceInfo(deviceType, host, username, password, connect, e2)
  {
  }
}
