/** cmd/api/server.go: graceful shutdown. The signal goroutine is a one-shot
    transition from Running to Draining fed by a one-slot quit buffer; the
    result of serve is a function of what ListenAndServe and Shutdown
    returned. */
module Server {
  import opened Wrappers

  datatype Signal = SIGINT | SIGTERM | OtherSignal(number: int)

  /** The signals signal.Notify relays to quit. */
  predicate Relayed(s: Signal) {
    s == SIGINT || s == SIGTERM
  }

  datatype Phase = Running | Draining

  /** context.WithTimeout(ctx, 30*time.Second), in nanoseconds. */
  const ShutdownTimeout: int := 30_000_000_000

  /** The state the signal goroutine works on. */
  class Shutdown {
    var phase: Phase
    /** The quit channel's buffer, of capacity one. */
    var quit: seq<Signal>
    /** The signal the goroutine received, once it has. */
    var caught: Option<Signal>
    /** The deadline passed to each srv.Shutdown call. */
    var shutdownCalls: seq<int>
    /** The values sent on shutdownErrorCh. */
    var sent: seq<Option<string>>

    /** Shutdown is called at most once, only after a relayed signal was
        received, with a 30-second deadline, and its result is sent once. */
    predicate Valid()
      reads this
    {
      && |quit| <= 1
      && (forall i :: 0 <= i < |quit| ==> Relayed(quit[i]))
      && (phase == Running <==> caught.None?)
      && (caught.Some? ==> Relayed(caught.value))
      && (phase == Running ==> shutdownCalls == [] && sent == [])
      && (phase == Draining ==> shutdownCalls == [ShutdownTimeout] && |sent| == 1)
    }

    constructor ()
      ensures Valid() && phase == Running && quit == [] && caught == None
    {
      phase := Running;
      quit := [];
      caught := None;
      shutdownCalls := [];
      sent := [];
    }

    /** The runtime delivering a signal: only SIGINT and SIGTERM are relayed,
        and a signal that finds the buffer full is dropped (Notify never blocks). */
    method Deliver(s: Signal)
      requires Valid()
      modifies this
      ensures Valid()
      ensures quit == if Relayed(s) && old(quit) == [] then [s] else old(quit)
      ensures phase == old(phase) && caught == old(caught)
      ensures shutdownCalls == old(shutdownCalls) && sent == old(sent)
    {
      if Relayed(s) && quit == [] {
        quit := [s];
      }
    }

    /** The goroutine's run once a signal is buffered: receive it, call
        Shutdown with the 30-second deadline, send its result. While the
        buffer is empty the goroutine stays blocked and nothing happens. */
    method Receive(shutdownResult: Option<string>)
      requires Valid() && phase == Running && quit != []
      modifies this
      ensures Valid()
      ensures phase == Draining && caught == Some(old(quit)[0]) && quit == []
      ensures shutdownCalls == [ShutdownTimeout] && sent == [shutdownResult]
    {
      var s := quit[0];
      quit := [];
      caught := Some(s);
      shutdownCalls := shutdownCalls + [ShutdownTimeout];
      sent := sent + [shutdownResult];
      phase := Draining;
    }
  }

  /** What ListenAndServe returned: it always returns an error. */
  datatype ListenResult = ServerClosed | ListenFailed(message: string)

  /** The step after ListenAndServe returns. */
  datatype AfterListen = Return(err: Option<string>) | AwaitShutdown

  /** !errors.Is(err, http.ErrServerClosed) returns the error at once;
      ErrServerClosed means Shutdown has begun and its result is awaited. */
  function AfterListenAndServe(listen: ListenResult): (r: AfterListen)
    ensures r == AwaitShutdown <==> listen == ServerClosed
    ensures listen.ListenFailed? ==> r == Return(Some(listen.message))
  {
    match listen
    case ServerClosed => AwaitShutdown
    case ListenFailed(m) => Return(Some(m))
  }

  /** serve's result, from the listen error and the value received from
      shutdownErrorCh (read only when the step above awaits it). */
  function Serve(listen: ListenResult, shutdownErr: Option<string>): (r: Option<string>)
    ensures r == None <==> listen == ServerClosed && shutdownErr == None
    ensures listen.ListenFailed? ==> r == Some(listen.message)
    ensures listen == ServerClosed ==> r == shutdownErr
  {
    match AfterListenAndServe(listen)
    case Return(err) => err
    case AwaitShutdown => if shutdownErr.Some? then shutdownErr else None
  }

  /** A listen failure other than ErrServerClosed is returned without the
      shutdown result being looked at. */
  lemma FailureIgnoresShutdown(m: string, e1: Option<string>, e2: Option<string>)
    ensures Serve(ListenFailed(m), e1) == Serve(ListenFailed(m), e2)
  {
  }

  /** Once Draining, further signals change nothing but the buffer, and the
      goroutine receives no more: Shutdown stays called once. */
  method RunSignals(signals: seq<Signal>, shutdownResult: Option<string>) returns (s: Shutdown)
    ensures s.Valid()
    ensures s.phase == Draining <==> exists i :: 0 <= i < |signals| && Relayed(signals[i])
    ensures s.phase == Draining ==> |s.shutdownCalls| == 1 && s.sent == [shutdownResult]
    ensures s.phase == Running ==> s.shutdownCalls == [] && s.sent == []
  {
    s := new Shutdown();
    for i := 0 to |signals|
      invariant s.Valid()
      invariant s.phase == Draining <==> exists j :: 0 <= j < i && Relayed(signals[j])
      invariant s.phase == Running ==> s.quit == []
      invariant s.phase == Draining ==> s.sent == [shutdownResult]
    {
      s.Deliver(signals[i]);
      if s.phase == Running && s.quit != [] {
        s.Receive(shutdownResult);
      }
    }
  }
}
