/** The local OAuth redirect capture server. The module-level `server` and
    `timeoutHandle` variables and the arguments of the latest
    `startRedirectServer` call are the fields of one `Server` object; the
    network and the clock drive it through events: a `listen` callback, an
    inbound `/callback` request, a timer firing. */
module RedirectServer {
  import opened Json

  /** The values handed to the server as callbacks. `NotAFunction` is any
      non-callable value; the two functions are the ones the authorization
      flow defines (its code-exchange handler and its timeout handler). */
  datatype Callback = NotAFunction | CodeHandler | TimeoutHandler

  predicate IsFunction(c: Callback) {
    !c.NotAFunction?
  }

  /** One call the server made to a callback, with its argument (`None` when called with none). */
  datatype Invocation = Invocation(callee: Callback, argument: Option<string>)

  /** A timer set by `setTimeout`: the `onTimeout` its closure captured, its delay in ms, and whether it is still armed. */
  datatype Timer = Timer(onTimeout: Callback, delayMs: nat, pending: bool)

  /** The HTML page the handler sends back. */
  datatype Page = AuthorizationFailed | StateMismatch | AuthorizationSuccessful | NoCodeReceived

  /** How a request to the callback path ended. */
  datatype Handled =
    | NotServed                 // no server is listening
    | Sent(page: Page)          // the handler ran to completion
    | SentThenThrew(page: Page) // the page went out, then calling `onCodeReceived` threw a TypeError

  /** The delay every timer is armed with: `10 * 1000` ms, although the
      comments and the warning beside it speak of 60 seconds. */
  const SourceTimeoutMs: nat := 10 * 1000

  /** `timers` with the one at `handle` cancelled (`clearTimeout(timeoutHandle)`). */
  function Cleared(timers: seq<Timer>, handle: int): (r: seq<Timer>)
    ensures |r| == |timers|
    ensures forall i :: 0 <= i < |timers| && i != handle ==> r[i] == timers[i]
    ensures 0 <= handle < |timers| ==> r[handle] == timers[handle].(pending := false)
  {
    if 0 <= handle < |timers| then timers[handle := timers[handle].(pending := false)] else timers
  }

  class Server {
    /** `server` is non-null */
    var server: bool
    /** the current server's `listen` callback has run */
    var listening: bool
    /** every timer ever armed; `timeoutHandle` is the index of the latest, -1 while unset */
    var timers: seq<Timer>
    var timeoutHandle: int
    /** the arguments of the latest `startRedirectServer` call, as its handler captured them */
    var expectedState: string
    var onCodeReceived: Callback
    var onTimeout: Callback
    /** every callback invocation so far, in order */
    var invoked: seq<Invocation>
    /** servers created, servers closed by `shutdown`, and servers whose
        reference was overwritten by a later start while still open */
    ghost var starts: nat
    ghost var closes: nat
    ghost var orphaned: nat

    /** Every server created is closed exactly once, still open, or orphaned. */
    ghost predicate Valid()
      reads this
    {
      closes + orphaned + (if server then 1 else 0) == starts &&
      (listening ==> server) &&
      -1 <= timeoutHandle < |timers|
    }

    /** The module as first loaded: no server, no timer. */
    constructor ()
      ensures Valid()
      ensures !server && !listening && timers == [] && timeoutHandle == -1 && invoked == []
      ensures starts == 0 && closes == 0 && orphaned == 0
    {
      server, listening := false, false;
      timers, timeoutHandle := [], -1;
      expectedState, onCodeReceived, onTimeout := "", NotAFunction, NotAFunction;
      invoked := [];
      starts, closes, orphaned := 0, 0, 0;
    }

    /** `startRedirectServer(expectedState, onCodeReceived, onTimeout)` up to
        `server.listen`: a new server replaces the module reference (an open
        one is left running, unreachable) and waits for its listen callback. */
    method Start(state: string, codeCallback: Callback, timeoutCallback: Callback)
      requires Valid()
      modifies this
      ensures Valid()
      ensures server && !listening
      ensures expectedState == state && onCodeReceived == codeCallback
      ensures onTimeout == timeoutCallback
      ensures timers == old(timers) && timeoutHandle == old(timeoutHandle) && invoked == old(invoked)
      ensures starts == old(starts) + 1 && closes == old(closes)
      ensures orphaned == old(orphaned) + (if old(server) then 1 else 0)
    {
      if server {
        orphaned := orphaned + 1;
      }
      expectedState, onCodeReceived, onTimeout := state, codeCallback, timeoutCallback;
      server, listening := true, false;
      starts := starts + 1;
    }

    /** The `listen` callback: only now is the timer armed, always with the same delay. */
    method ListenReady()
      requires Valid()
      modifies this
      ensures Valid()
      ensures old(server) && !old(listening) ==>
        listening && timers == old(timers) + [Timer(onTimeout, SourceTimeoutMs, true)] && timeoutHandle == |old(timers)|
      ensures !(old(server) && !old(listening)) ==>
        listening == old(listening) && timers == old(timers) && timeoutHandle == old(timeoutHandle)
      ensures server == old(server) && invoked == old(invoked) && onTimeout == old(onTimeout)
      ensures expectedState == old(expectedState) && onCodeReceived == old(onCodeReceived)
      ensures starts == old(starts) && closes == old(closes) && orphaned == old(orphaned)
    {
      if server && !listening {
        listening := true;
        timers := timers + [Timer(onTimeout, SourceTimeoutMs, true)];
        timeoutHandle := |timers| - 1;
      }
    }

    /** `shutdown()`: closes the server the module refers to, at most once. */
    method Shutdown()
      requires Valid()
      modifies this
      ensures Valid()
      ensures !server && !listening
      ensures closes == old(closes) + (if old(server) then 1 else 0)
      ensures timers == old(timers) && timeoutHandle == old(timeoutHandle) && invoked == old(invoked)
      ensures expectedState == old(expectedState) && onCodeReceived == old(onCodeReceived)
      ensures onTimeout == old(onTimeout) && starts == old(starts) && orphaned == old(orphaned)
    {
      if server {
        closes := closes + 1;
        server, listening := false, false;
      }
    }

    /** A `GET /callback?code=&state=&error=` request. The checks run in the
        source's order: `error`, then `state`, then `code`. */
    method Request(code: Option<string>, state: Option<string>, error: Option<string>) returns (h: Handled)
      requires Valid()
      modifies this
      ensures Valid()
      ensures starts == old(starts) && orphaned == old(orphaned)
      ensures expectedState == old(expectedState) && onCodeReceived == old(onCodeReceived)
      ensures onTimeout == old(onTimeout) && timeoutHandle == old(timeoutHandle)
      ensures !old(listening) ==>
        h == NotServed && server == old(server) && timers == old(timers) &&
        invoked == old(invoked) && closes == old(closes)
      // an error parameter: failure page, shut down, timer left armed, no callback
      ensures old(listening) && Present(error) ==>
        h == Sent(AuthorizationFailed) && !server && timers == old(timers) &&
        invoked == old(invoked) && closes == old(closes) + 1
      // a state other than the expected one: mismatch page, shut down, timer left armed, no callback
      ensures old(listening) && !Present(error) && state != Some(expectedState) ==>
        h == Sent(StateMismatch) && !server && timers == old(timers) &&
        invoked == old(invoked) && closes == old(closes) + 1
      // the expected state and a code: the code goes to onCodeReceived exactly once, then the timer is cleared and the server shut down
      ensures (old(listening) && !Present(error) && state == Some(expectedState) && Present(code) &&
               IsFunction(onCodeReceived)) ==>
        h == Sent(AuthorizationSuccessful) && !server && timers == Cleared(old(timers), timeoutHandle) &&
        invoked == old(invoked) + [Invocation(onCodeReceived, code)] && closes == old(closes) + 1
      // ... unless onCodeReceived is not callable: the call throws before the timer is cleared or the server shut down
      ensures (old(listening) && !Present(error) && state == Some(expectedState) && Present(code) &&
               !IsFunction(onCodeReceived)) ==>
        h == SentThenThrew(AuthorizationSuccessful) && server && listening && timers == old(timers) &&
        invoked == old(invoked) && closes == old(closes)
      // the expected state and no code: timer cleared, shut down, neither callback
      ensures old(listening) && !Present(error) && state == Some(expectedState) && !Present(code) ==>
        h == Sent(NoCodeReceived) && !server && timers == Cleared(old(timers), timeoutHandle) &&
        invoked == old(invoked) && closes == old(closes) + 1
    {
      if !listening {
        return NotServed;
      }
      if Present(error) {
        h := Sent(AuthorizationFailed);
        Shutdown();
        return;
      }
      if state != Some(expectedState) {
        h := Sent(StateMismatch);
        Shutdown();
        return;
      }
      if Present(code) {
        if !IsFunction(onCodeReceived) {
          return SentThenThrew(AuthorizationSuccessful);
        }
        h := Sent(AuthorizationSuccessful);
        invoked := invoked + [Invocation(onCodeReceived, code)];
        timers := Cleared(timers, timeoutHandle);
        Shutdown();
      } else {
        h := Sent(NoCodeReceived);
        timers := Cleared(timers, timeoutHandle);
        Shutdown();
      }
    }

    /** Timer `i` fires. A cleared or already fired timer does nothing; a
        pending one calls the `onTimeout` its closure captured when that is a
        function, then shuts down whichever server the module refers to now. */
    method TimerFires(i: nat)
      requires Valid()
      modifies this
      ensures Valid()
      ensures starts == old(starts) && orphaned == old(orphaned) && timeoutHandle == old(timeoutHandle)
      ensures expectedState == old(expectedState) && onCodeReceived == old(onCodeReceived)
      ensures onTimeout == old(onTimeout)
      ensures !(i < |old(timers)| && old(timers)[i].pending) ==>
        server == old(server) && listening == old(listening) && timers == old(timers) &&
        invoked == old(invoked) && closes == old(closes)
      ensures i < |old(timers)| && old(timers)[i].pending ==>
        timers == old(timers)[i := old(timers)[i].(pending := false)] && !server &&
        closes == old(closes) + (if old(server) then 1 else 0) &&
        invoked == old(invoked) +
          (if IsFunction(old(timers)[i].onTimeout) then [Invocation(old(timers)[i].onTimeout, None)] else [])
    {
      if i < |timers| && timers[i].pending {
        var t := timers[i];
        timers := timers[i := t.(pending := false)];
        if IsFunction(t.onTimeout) {
          invoked := invoked + [Invocation(t.onTimeout, None)];
        }
        Shutdown();
      }
    }
  }
}
