/** The editor extension's connection to the assistant server
    (`WebSocketManager`): the connect guard, reconnection after a drop, and
    the send path with its bounded resend counter. Timers are a queue of
    scheduled callbacks that fire when the environment says so; the socket's
    state is a field the open/close events set. */
module ExtensionSocket {
  import opened Wrappers

  /** `readyState` of the socket. */
  datatype ReadyState = Connecting | Open | Closing | Closed

  /** The webview provider, and whether it has a view to post to. */
  datatype Provider = NoProvider | Provider(hasView: bool)

  /** A file attached to an outgoing message. */
  datatype FileContext = FileContext(filename: string, content: string)

  /** The argument of `sendMessage`: `{text, context, retry}`; `text` may be undefined. */
  datatype Outbound = Outbound(text: Option<string>, context: Option<FileContext>, retry: bool)

  /** `_pendingMessage`: `{type: "text", message, files}`. */
  datatype PendingMessage = PendingMessage(kind: string, message: Option<string>, files: seq<FileContext>)

  /** A payload posted to the webview. Only a `sendFailed` payload carries a
      `message` field. */
  datatype Notification =
    | Status(command: string, status: bool)
    | SendFailed(status: bool, message: Option<PendingMessage>)

  /** A callback waiting on `setTimeout`. */
  datatype Timer = ReconnectTimer | ResendTimer

  const MaxResendAttempts: nat := 2
  const SendFailedCommand: string := "sendFailed"
  const TypeError: string := "TypeError"

  /** The pending message a new outgoing message becomes. */
  function PendingOf(m: Outbound): (p: PendingMessage)
    ensures p.kind == "text" && p.message == m.text
    ensures |p.files| <= 1 && (p.files == [] <==> m.context.None?)
  {
    PendingMessage("text", m.text, if m.context.Some? then [m.context.value] else [])
  }

  /** The payload `notifyWebview(statusType, status, message)` builds. */
  function Payload(statusType: string, status: bool, message: Option<PendingMessage>): (n: Notification)
    ensures n.SendFailed? <==> statusType == SendFailedCommand
    ensures n.status == status
    ensures n.SendFailed? ==> n.message == message
    ensures n.Status? ==> n.command == statusType
  {
    if statusType == SendFailedCommand then SendFailed(status, message) else Status(statusType, status)
  }

  class WebSocketManager {
    /** `_ws`: `None` before the first connect, else the current socket's state. */
    var ws: Option<ReadyState>
    /** How many sockets `connect` has created. */
    var socketsCreated: nat
    var isConnecting: bool
    var pendingMessage: Option<PendingMessage>
    var resendAttempt: nat
    var provider: Provider
    /** Payloads posted to the webview, in order. */
    var notifications: seq<Notification>
    /** Callbacks scheduled and not yet fired. */
    var scheduled: seq<Timer>
    /** What the socket's `send` accepted, in order: each time the value of
        `_pendingMessage` at that moment. */
    var transmitted: seq<Option<PendingMessage>>

    /** The resend counter never goes past its limit. */
    ghost predicate Valid()
      reads this
    {
      resendAttempt <= MaxResendAttempts
    }

    constructor ()
      ensures Valid()
      ensures ws == None && socketsCreated == 0 && !isConnecting && pendingMessage == None
      ensures resendAttempt == 0 && provider == NoProvider && notifications == [] && scheduled == []
      ensures transmitted == []
    {
      ws := None;
      socketsCreated := 0;
      isConnecting := false;
      pendingMessage := None;
      resendAttempt := 0;
      provider := NoProvider;
      notifications := [];
      scheduled := [];
      transmitted := [];
    }

    method SetProvider(p: Provider)
      modifies this
      ensures transmitted == old(transmitted)
      ensures provider == p
      ensures ws == old(ws) && socketsCreated == old(socketsCreated) && isConnecting == old(isConnecting)
      ensures pendingMessage == old(pendingMessage) && resendAttempt == old(resendAttempt)
      ensures notifications == old(notifications) && scheduled == old(scheduled)
    {
      provider := p;
    }

    /** `connect`: does nothing while a connection attempt is under way or the
        socket is open; otherwise creates exactly one new socket. */
    method Connect()
      modifies this
      ensures transmitted == old(transmitted)
      ensures var skip := old(isConnecting) || old(ws) == Some(Open);
        && (skip ==> ws == old(ws) && socketsCreated == old(socketsCreated) && isConnecting == old(isConnecting))
        && (!skip ==> ws == Some(Connecting) && socketsCreated == old(socketsCreated) + 1 && isConnecting)
      ensures pendingMessage == old(pendingMessage) && resendAttempt == old(resendAttempt) && provider == old(provider)
      ensures notifications == old(notifications) && scheduled == old(scheduled)
    {
      if isConnecting || ws == Some(Open) {
        return;
      }
      isConnecting := true;
      ws := Some(Connecting);
      socketsCreated := socketsCreated + 1;
    }

    /** `reconnect`: schedules a reconnection. */
    method Reconnect()
      modifies this
      ensures transmitted == old(transmitted)
      ensures scheduled == old(scheduled) + [ReconnectTimer]
      ensures ws == old(ws) && socketsCreated == old(socketsCreated) && isConnecting == old(isConnecting)
      ensures pendingMessage == old(pendingMessage) && resendAttempt == old(resendAttempt)
      ensures provider == old(provider) && notifications == old(notifications)
    {
      scheduled := scheduled + [ReconnectTimer];
    }

    /** `notifyWebview`: posts the payload only when the provider has a view. */
    method NotifyWebview(statusType: string, status: bool, message: Option<PendingMessage>)
      modifies this
      ensures transmitted == old(transmitted)
      ensures notifications == old(notifications)
        + (if provider.Provider? && provider.hasView then [Payload(statusType, status, message)] else [])
      ensures ws == old(ws) && socketsCreated == old(socketsCreated) && isConnecting == old(isConnecting)
      ensures pendingMessage == old(pendingMessage) && resendAttempt == old(resendAttempt)
      ensures provider == old(provider) && scheduled == old(scheduled)
    {
      if provider.Provider? && provider.hasView {
        notifications := notifications + [Payload(statusType, status, message)];
      }
    }

    /** `resendMessage`: below the limit, counts one more attempt and schedules
        a resend; at the limit, resets the counter and reports the pending
        message as failed. */
    method ResendMessage()
      requires Valid()
      modifies this
      ensures transmitted == old(transmitted)
      ensures Valid()
      ensures old(resendAttempt) < MaxResendAttempts ==>
                resendAttempt == old(resendAttempt) + 1 && scheduled == old(scheduled) + [ResendTimer]
                && notifications == old(notifications)
      ensures old(resendAttempt) == MaxResendAttempts ==>
                && resendAttempt == 0 && scheduled == old(scheduled)
                && notifications == old(notifications)
                     + (if provider.Provider? && provider.hasView then [SendFailed(true, pendingMessage)] else [])
      ensures ws == old(ws) && socketsCreated == old(socketsCreated) && isConnecting == old(isConnecting)
      ensures pendingMessage == old(pendingMessage) && provider == old(provider)
    {
      if resendAttempt < MaxResendAttempts {
        resendAttempt := resendAttempt + 1;
        scheduled := scheduled + [ResendTimer];
      } else {
        resendAttempt := 0;
        NotifyWebview(SendFailedCommand, true, pendingMessage);
      }
    }

    /** `sendMessage`: a new message (first attempt, not a retry) replaces the
        pending one; the pending message then goes out on an open socket, or
        the send counts as failed. `message` is `None` when called without an
        argument, as the resend timer does; `sendThrows` says whether the
        socket's `send` raises. */
    method SendMessage(message: Option<Outbound>, sendThrows: bool) returns (r: Outcome<string>)
      requires Valid()
      modifies this
      ensures Valid()
      ensures r.Fail? <==> (old(resendAttempt) == 0 && message.None?) || old(ws).None?
      ensures r.Fail? ==> r.error == TypeError
      ensures pendingMessage ==
        if old(resendAttempt) == 0 && message.Some? && !message.value.retry then Some(PendingOf(message.value))
        else old(pendingMessage)
      ensures r.Fail? ==> resendAttempt == old(resendAttempt) && notifications == old(notifications)
                          && scheduled == old(scheduled)
      ensures r.Pass? && old(ws) == Some(Open) && !sendThrows ==>
                resendAttempt == 0 && scheduled == old(scheduled)
                && notifications == old(notifications)
                     + (if provider.Provider? && provider.hasView then [Status("sendSuccess", true)] else [])
      ensures r.Pass? && (old(ws) != Some(Open) || sendThrows) ==>
                && (old(resendAttempt) < MaxResendAttempts ==>
                      resendAttempt == old(resendAttempt) + 1 && scheduled == old(scheduled) + [ResendTimer]
                      && notifications == old(notifications))
                && (old(resendAttempt) == MaxResendAttempts ==>
                      && resendAttempt == 0 && scheduled == old(scheduled)
                      && notifications == old(notifications)
                           + (if provider.Provider? && provider.hasView then [SendFailed(true, pendingMessage)] else []))
      ensures transmitted == old(transmitted)
        + (if r.Pass? && old(ws) == Some(Open) && !sendThrows then [pendingMessage] else [])
      ensures ws == old(ws) && socketsCreated == old(socketsCreated) && isConnecting == old(isConnecting)
      ensures provider == old(provider)
    {
      if resendAttempt == 0 {
        if message.None? {
          return Fail(TypeError);
        }
        if !message.value.retry {
          pendingMessage := Some(PendingOf(message.value));
        }
      }
      if ws.None? {
        return Fail(TypeError);
      }
      if ws == Some(Open) && !sendThrows {
        transmitted := transmitted + [pendingMessage];
        resendAttempt := 0;
        NotifyWebview("sendSuccess", true, None);
      } else {
        ResendMessage();
      }
      r := Pass;
    }

    /** The socket's `open` event: `handleConnection`. */
    method HandleConnection()
      modifies this
      ensures transmitted == old(transmitted)
      ensures ws == Some(Open) && !isConnecting
      ensures notifications == old(notifications)
        + (if provider.Provider? && provider.hasView then [Status("wsStatus", true)] else [])
      ensures socketsCreated == old(socketsCreated) && pendingMessage == old(pendingMessage)
      ensures resendAttempt == old(resendAttempt) && provider == old(provider) && scheduled == old(scheduled)
    {
      ws := Some(Open);
      isConnecting := false;
      NotifyWebview("wsStatus", true, None);
    }

    /** The socket's `close` event: `handleDisconnection`, which also
        schedules a reconnection. */
    method HandleDisconnection()
      modifies this
      ensures transmitted == old(transmitted)
      ensures ws == Some(Closed) && !isConnecting
      ensures notifications == old(notifications)
        + (if provider.Provider? && provider.hasView then [Status("wsStatus", false)] else [])
      ensures scheduled == old(scheduled) + [ReconnectTimer]
      ensures socketsCreated == old(socketsCreated) && pendingMessage == old(pendingMessage)
      ensures resendAttempt == old(resendAttempt) && provider == old(provider)
    {
      ws := Some(Closed);
      isConnecting := false;
      NotifyWebview("wsStatus", false, None);
      Reconnect();
    }

    /** A scheduled reconnection fires: it clears the connecting flag and
        connects, so it creates a socket unless the current one is open. */
    method FireReconnect(k: nat)
      requires k < |scheduled| && scheduled[k] == ReconnectTimer
      modifies this
      ensures transmitted == old(transmitted)
      ensures scheduled == old(scheduled[..k] + scheduled[k + 1..])
      ensures old(ws) == Some(Open) ==> ws == old(ws) && socketsCreated == old(socketsCreated) && !isConnecting
      ensures old(ws) != Some(Open) ==> ws == Some(Connecting) && socketsCreated == old(socketsCreated) + 1 && isConnecting
      ensures pendingMessage == old(pendingMessage) && resendAttempt == old(resendAttempt)
      ensures provider == old(provider) && notifications == old(notifications)
    {
      scheduled := scheduled[..k] + scheduled[k + 1..];
      isConnecting := false;
      Connect();
    }

    /** A scheduled resend fires: `sendMessage` with no argument, which
        raises a TypeError if the counter was reset to 0 meanwhile. */
    method FireResend(k: nat, sendThrows: bool) returns (r: Outcome<string>)
      requires Valid() && k < |scheduled| && scheduled[k] == ResendTimer
      modifies this
      ensures Valid()
      ensures r.Fail? <==> old(resendAttempt) == 0 || old(ws).None?
      ensures pendingMessage == old(pendingMessage)
      ensures r.Fail? ==>
                && r.error == TypeError && resendAttempt == old(resendAttempt)
                && notifications == old(notifications) && scheduled == old(scheduled[..k] + scheduled[k + 1..])
      ensures r.Pass? && old(ws) == Some(Open) && !sendThrows ==>
                && resendAttempt == 0 && scheduled == old(scheduled[..k] + scheduled[k + 1..])
                && notifications == old(notifications)
                     + (if provider.Provider? && provider.hasView then [Status("sendSuccess", true)] else [])
      ensures r.Pass? && (old(ws) != Some(Open) || sendThrows) ==>
                && (old(resendAttempt) < MaxResendAttempts ==>
                      && resendAttempt == old(resendAttempt) + 1
                      && scheduled == old(scheduled[..k] + scheduled[k + 1..]) + [ResendTimer]
                      && notifications == old(notifications))
                && (old(resendAttempt) == MaxResendAttempts ==>
                      && resendAttempt == 0 && scheduled == old(scheduled[..k] + scheduled[k + 1..])
                      && notifications == old(notifications)
                           + (if provider.Provider? && provider.hasView then [SendFailed(true, pendingMessage)] else []))
      ensures transmitted == old(transmitted)
        + (if r.Pass? && old(ws) == Some(Open) && !sendThrows then [old(pendingMessage)] else [])
      ensures ws == old(ws) && socketsCreated == old(socketsCreated) && isConnecting == old(isConnecting)
      ensures provider == old(provider)
    {
      scheduled := scheduled[..k] + scheduled[k + 1..];
      r := SendMessage(None, sendThrows);
    }
  }

  /** On a socket that never opens, one message is tried three times: the
      first send and two resends, after which the counter is back at 0 and
      the webview hears that this message failed. */
  method ThreeTriesThenFailed(m: WebSocketManager, msg: Outbound)
    requires m.Valid() && m.resendAttempt == 0 && m.scheduled == [] && !msg.retry
    requires m.ws == Some(Closed) && m.provider == Provider(true)
    modifies m
    ensures m.resendAttempt == 0 && m.scheduled == []
    ensures m.notifications == old(m.notifications) + [SendFailed(true, Some(PendingOf(msg)))]
    ensures m.transmitted == old(m.transmitted)
  {
    var r1 := m.SendMessage(Some(msg), false);
    assert m.scheduled == [ResendTimer] && m.resendAttempt == 1;
    var r2 := m.FireResend(0, false);
    assert m.scheduled == [ResendTimer] && m.resendAttempt == 2;
    var r3 := m.FireResend(0, false);
  }

  /** While a resend is pending the counter is not 0, so a new message does
      not replace the pending one: on an open socket the earlier message is
      what goes out, and the new one is dropped. */
  method NewMessageDuringResend(m: WebSocketManager, msg: Outbound)
    requires m.Valid() && m.resendAttempt == 1 && m.ws == Some(Open)
    modifies m
    ensures m.pendingMessage == old(m.pendingMessage)
    ensures m.transmitted == old(m.transmitted) + [old(m.pendingMessage)]
    ensures m.resendAttempt == 0
  {
    var r := m.SendMessage(Some(msg), false);
  }
}
