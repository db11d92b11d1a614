/**
  The chat script's connection manager as an object: its fields are the
  script's module-level variables and what the page shows, and each method
  is one of the script's functions or event handlers, changing the fields
  step by step as the script does. Every method is proved to leave the
  object in the state the matching function of module Lifecycle computes,
  and the methods that the browser calls keep the lifecycle invariant.
 */
module ChatSession {
  import opened Backoff
  import opened JsString
  import opened Lifecycle

  class Session {
    var sockets: seq<ReadyState>  // every WebSocket created; the last is `socket`
    var pendingTimer: Option<nat> // `reconnectTimeout`, holding the delay while it is pending
    var reconnectAttempts: nat
    var manuallyClosed: bool
    var geoResponsePending: bool
    var status: Status            // the text of the status line
    var input: string             // the value of the chat input box
    var log: seq<Entry>           // the children of the message list
    var sent: seq<string>         // the frames handed to socket.send

    /** The object's fields as a Lifecycle state. */
    function View(): State
      reads this
    {
      State(sockets, pendingTimer, reconnectAttempts, manuallyClosed, geoResponsePending,
            status, input, log, sent)
    }

    ghost predicate Valid()
      reads this
    {
      Inv(View())
    }

    /** Page load: the module-level variables get their initial values, then connectSocket runs. */
    constructor ()
      ensures Valid() && View() == Load()
    {
      sockets := [];
      pendingTimer := None;
      reconnectAttempts := 0;
      manuallyClosed := false;
      geoResponsePending := false;
      status := Status.Unset;
      input := "";
      log := [];
      sent := [];
      new;
      Connect();
      LoadEstablishesInv();
    }

    /** addMessage: the entry is appended to the message list. */
    method AddMessage(content: Content, origin: Origin)
      modifies this
      ensures View() == Lifecycle.AddMessage(old(View()), content, origin)
    {
      log := log + [Entry(content, origin)];
    }

    /** connectSocket. */
    method Connect()
      modifies this
      ensures View() == Lifecycle.Connect(old(View()))
    {
      if manuallyClosed {
        return;
      }
      if |sockets| > 0 && (sockets[|sockets| - 1] == ReadyState.Open || sockets[|sockets| - 1] == ReadyState.Connecting) {
        return;
      }
      status := Status.Connecting;
      sockets := sockets + [ReadyState.Connecting];
    }

    /** The "open" event of socket `id`; the browser has just made it OPEN. */
    method OnOpen(id: nat)
      requires Valid() && id < |sockets| && sockets[id] == ReadyState.Connecting
      modifies this
      ensures Valid() && View() == Lifecycle.OnOpen(old(View()), id)
    {
      OnOpenPreservesInv(View(), id);
      sockets := sockets[id := ReadyState.Open];
      AddMessage(Note(Connected), Server);
      status := Status.Online;
      reconnectAttempts := 0;
    }

    /** The "message" event of any socket. */
    method OnMessage(data: string)
      requires Valid()
      modifies this
      ensures Valid() && View() == Lifecycle.OnMessage(old(View()), data)
    {
      if geoResponsePending {
        geoResponsePending := false;
        return;
      }
      AddMessage(Text(data), Server);
    }

    /** The "error" event of any socket. */
    method OnError()
      requires Valid()
      modifies this
      ensures Valid() && View() == Lifecycle.OnError(old(View()))
    {
      status := Status.ConnectionError;
      AddMessage(Note(ServerError), Server);
    }

    /** The "close" event of socket `id`; the browser has just made it CLOSED. */
    method OnClose(id: nat)
      requires Valid() && id < |sockets| && sockets[id] != ReadyState.Closed
      modifies this
      ensures Valid() && View() == Lifecycle.OnClose(old(View()), id)
    {
      OnClosePreservesInv(View(), id);
      sockets := sockets[id := ReadyState.Closed];
      if manuallyClosed {
        return;
      }
      status := Status.ConnectionClosed;
      AddMessage(Note(ConnectionLost), Server);
      ScheduleReconnect();
    }

    /** scheduleReconnect: the previous timer is cleared before the new one is set. */
    method ScheduleReconnect()
      modifies this
      ensures View() == Lifecycle.ScheduleReconnect(old(View()))
    {
      if manuallyClosed {
        return;
      }
      pendingTimer := None;
      var delay := Delay(reconnectAttempts);
      reconnectAttempts := reconnectAttempts + 1;
      pendingTimer := Some(delay);
    }

    /** The reconnect timer's callback. */
    method TimerFires()
      requires Valid()
      modifies this
      ensures Valid() && View() == Lifecycle.TimerFires(old(View()))
    {
      TimerFiresPreservesInv(View());
      pendingTimer := None;
      status := Status.Reconnecting;
      Connect();
    }

    /** sendMessage, run by the send button and by Enter in the input box. */
    method SendMessage()
      requires Valid()
      modifies this
      ensures Valid() && View() == Lifecycle.SendMessage(old(View()))
    {
      ghost var before := View();
      SendMessagePreservesInv(before);
      var text := Trim(input);
      if text == [] {
        return;
      }
      AddMessage(Text(text), User);
      if |sockets| > 0 && sockets[|sockets| - 1] == ReadyState.Open {
        sent := sent + [text];
      } else {
        AddMessage(Note(MessageNotSent), Server);
      }
      input := "";
    }

    /** The success callback of the geolocation request, given the position's coordinates. */
    method SendGeo(latitude: string, longitude: string)
      requires Valid()
      modifies this
      ensures Valid() && View() == Lifecycle.SendGeo(old(View()), latitude, longitude)
    {
      AddMessage(GeoLink(latitude, longitude), User);
      if |sockets| > 0 && sockets[|sockets| - 1] == ReadyState.Open {
        geoResponsePending := true;
        sent := sent + ["geo:" + latitude + "," + longitude];
      } else {
        AddMessage(Note(GeoNotSent), Server);
      }
    }

    /** Typing into the chat input box. */
    method SetInput(text: string)
      requires Valid()
      modifies this
      ensures Valid() && View() == Lifecycle.SetInput(old(View()), text)
    {
      input := text;
    }

    /** The "beforeunload" handler. */
    method Unload()
      requires Valid()
      modifies this
      ensures Valid() && View() == Lifecycle.Unload(old(View()))
    {
      UnloadPreservesInv(View());
      manuallyClosed := true;
      pendingTimer := None;
      if |sockets| > 0 && sockets[|sockets| - 1] == ReadyState.Open {
        sockets := sockets[|sockets| - 1 := ReadyState.Closing];
      }
    }
  }
}
