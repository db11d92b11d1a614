/**
  Concrete runs of the chat page, from load through a fixed list of events,
  and what each one leaves behind.
 */
module Scenarios {
  import opened Backoff
  import opened JsString
  import opened Lifecycle

  /** Running a non-empty list of events is running its first event, then the rest. */
  lemma RunStep(s: State, events: seq<Event>)
    requires |events| > 0 && Enabled(s, events[0])
    ensures Run(s, events) == Run(Apply(s, events[0]), events[1..])
  {
  }

  /** Open, then send a text: exactly one frame, the trimmed text, goes out and it is logged as the user's. */
  lemma SendWhileOpen(text: string)
    requires !AllWhiteSpace(text)
    ensures var r := Run(Load(), [SocketOpen(0), InputChanged(text), SendPressed]);
      && r.sent == [Trim(text)]
      && r.log == [Entry(Note(Connected), Server), Entry(Text(Trim(text)), User)]
      && r.input == ""
  {
    var s0 := Load();
    var s1 := OnOpen(s0, 0);
    var s2 := SetInput(s1, text);
    RunStep(s0, [SocketOpen(0), InputChanged(text), SendPressed]);
    RunStep(s1, [InputChanged(text), SendPressed]);
    RunStep(s2, [SendPressed]);
  }

  /** Sending before the socket is open transmits nothing and logs a "not sent" notice. */
  lemma SendWhileConnecting(text: string)
    requires !AllWhiteSpace(text)
    ensures var r := Run(Load(), [InputChanged(text), SendPressed]);
      && r.sent == []
      && r.log == [Entry(Text(Trim(text)), User), Entry(Note(MessageNotSent), Server)]
      && r.input == ""
  {
    var s0 := Load();
    var s1 := SetInput(s0, text);
    RunStep(s0, [InputChanged(text), SendPressed]);
    RunStep(s1, [SendPressed]);
  }

  /** Input that is only white space is ignored even while open, and stays in the box. */
  lemma BlankInputIgnored(text: string)
    requires AllWhiteSpace(text)
    ensures var r := Run(Load(), [SocketOpen(0), InputChanged(text), SendPressed]);
      && r.sent == [] && r.input == text && r.log == [Entry(Note(Connected), Server)]
  {
    var s0 := Load();
    var s1 := OnOpen(s0, 0);
    var s2 := SetInput(s1, text);
    RunStep(s0, [SocketOpen(0), InputChanged(text), SendPressed]);
    RunStep(s1, [InputChanged(text), SendPressed]);
    RunStep(s2, [SendPressed]);
  }

  /** An unintended close schedules a 2000 ms reconnect; when it fires a new socket is connecting. */
  lemma ReconnectAfterClose()
    ensures var r := Run(Load(), [SocketClose(0)]);
      r.status == Status.ConnectionClosed && r.pendingTimer == Some(2000) && r.reconnectAttempts == 1
    ensures var r := Run(Load(), [SocketClose(0), TimerFire]);
      r.sockets == [ReadyState.Closed, ReadyState.Connecting] && r.pendingTimer == None
      && r.status == Status.Connecting
  {
    var s0 := Load();
    var s1 := OnClose(s0, 0);
    DelayTable();
    RunStep(s0, [SocketClose(0)]);
    RunStep(s0, [SocketClose(0), TimerFire]);
    RunStep(s1, [TimerFire]);
  }

  /** The second failed connection in a row waits 4000 ms. */
  lemma SecondFailureBacksOff()
    ensures Run(Load(), [SocketClose(0), TimerFire, SocketClose(1)]).pendingTimer == Some(4000)
  {
    var s0 := Load();
    var s1 := OnClose(s0, 0);
    var s2 := TimerFires(s1);
    assert OnClose(s2, 1).pendingTimer == Some(4000) by {
      DelayTable();
    }
    RunStep(s0, [SocketClose(0), TimerFire, SocketClose(1)]);
    RunStep(s1, [TimerFire, SocketClose(1)]);
    RunStep(s2, [SocketClose(1)]);
  }

  /** The third failed connection in a row waits the capped 8000 ms. */
  lemma ThirdFailureIsCapped()
    ensures Run(Load(), [SocketClose(0), TimerFire, SocketClose(1), TimerFire, SocketClose(2)]).pendingTimer == Some(8000)
  {
    var s0 := Load();
    var s1 := OnClose(s0, 0);
    var s2 := TimerFires(s1);
    var s3 := OnClose(s2, 1);
    var s4 := TimerFires(s3);
    assert s4.reconnectAttempts == 2 && s4.sockets == [ReadyState.Closed, ReadyState.Closed, ReadyState.Connecting] by {
      assert s2.reconnectAttempts == 1 && s2.sockets == [ReadyState.Closed, ReadyState.Connecting];
    }
    assert Run(s4, [SocketClose(2)]).pendingTimer == Some(8000) by {
      RunStep(s4, [SocketClose(2)]);
      DelayTable();
    }
    assert Run(s0, [SocketClose(0), TimerFire, SocketClose(1), TimerFire, SocketClose(2)]) == Run(s4, [SocketClose(2)]) by {
      RunStep(s0, [SocketClose(0), TimerFire, SocketClose(1), TimerFire, SocketClose(2)]);
      RunStep(s1, [TimerFire, SocketClose(1), TimerFire, SocketClose(2)]);
      RunStep(s2, [SocketClose(1), TimerFire, SocketClose(2)]);
      RunStep(s3, [TimerFire, SocketClose(2)]);
    }
  }

  /** Opening after failed connections resets the attempt count. */
  lemma OpenAfterFailuresResets()
    ensures Run(Load(), [SocketClose(0), TimerFire, SocketClose(1), TimerFire, SocketOpen(2)]).reconnectAttempts == 0
  {
    var s0 := Load();
    var s1 := OnClose(s0, 0);
    var s2 := TimerFires(s1);
    var s3 := OnClose(s2, 1);
    var s4 := TimerFires(s3);
    assert s4.sockets == [ReadyState.Closed, ReadyState.Closed, ReadyState.Connecting] by {
      assert s2.sockets == [ReadyState.Closed, ReadyState.Connecting];
    }
    assert Run(s4, [SocketOpen(2)]).reconnectAttempts == 0 by {
      RunStep(s4, [SocketOpen(2)]);
    }
    assert Run(s0, [SocketClose(0), TimerFire, SocketClose(1), TimerFire, SocketOpen(2)]) == Run(s4, [SocketOpen(2)]) by {
      RunStep(s0, [SocketClose(0), TimerFire, SocketClose(1), TimerFire, SocketOpen(2)]);
      RunStep(s1, [TimerFire, SocketClose(1), TimerFire, SocketOpen(2)]);
      RunStep(s2, [SocketClose(1), TimerFire, SocketOpen(2)]);
      RunStep(s3, [TimerFire, SocketOpen(2)]);
    }
  }

  /** A timer that fires after unload connects nothing. */
  lemma StaleTimerAfterUnload()
    ensures var r := Run(Load(), [SocketClose(0), BeforeUnload, TimerFire]);
      r.sockets == [ReadyState.Closed] && r.pendingTimer == None && r.manuallyClosed
  {
    var s0 := Load();
    var s1 := OnClose(s0, 0);
    var s2 := Unload(s1);
    RunStep(s0, [SocketClose(0), BeforeUnload, TimerFire]);
    RunStep(s1, [BeforeUnload, TimerFire]);
    RunStep(s2, [TimerFire]);
  }

  /** The geo probe goes out as "geo:10,20"; its echo is swallowed and the next frame is shown. */
  lemma GeoProbeEchoSwallowed()
    ensures var r := Run(Load(), [SocketOpen(0), GeoPosition("10", "20"),
                                  SocketMessage(0, "geo:10,20"), SocketMessage(0, "hello")]);
      && r.sent == ["geo:10,20"]
      && r.log == [Entry(Note(Connected), Server), Entry(GeoLink("10", "20"), User), Entry(Text("hello"), Server)]
      && !r.geoResponsePending
  {
    var s0 := Load();
    var s1 := OnOpen(s0, 0);
    var s2 := SendGeo(s1, "10", "20");
    var s3 := OnMessage(s2, "geo:10,20");
    assert GeoFrame("10", "20") == "geo:10,20";
    RunStep(s0, [SocketOpen(0), GeoPosition("10", "20"), SocketMessage(0, "geo:10,20"), SocketMessage(0, "hello")]);
    RunStep(s1, [GeoPosition("10", "20"), SocketMessage(0, "geo:10,20"), SocketMessage(0, "hello")]);
    RunStep(s2, [SocketMessage(0, "geo:10,20"), SocketMessage(0, "hello")]);
    RunStep(s3, [SocketMessage(0, "hello")]);
  }
}
