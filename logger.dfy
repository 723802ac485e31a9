/** The logger facade: an ordered list of top-level handlers, changed in place
    by construction and `AddHandler`, and fanned out to by every logging,
    reload and close call. The calls made on the handlers are recorded in the
    ghost `trace`. */
module Logging {
  import opened Records
  import opened Handlers
  import opened Options
  import opened Composer
  import opened Events

  class Logger {
    var handlers: seq<Handler>
    /** Every call this logger has made on its handlers, oldest first. */
    ghost var trace: seq<Event>

    constructor ()
      ensures handlers == [] && trace == []
    {
      handlers := [];
      trace := [];
    }

    /** A logger with no handlers: every call on it is a no-op fan-out. */
    static method NewNullLogger() returns (l: Logger)
      ensures fresh(l)
      ensures l.handlers == [] && l.trace == []
    {
      l := new Logger();
    }

    /** Builds the terminals the option's type asks for, wraps each in a Json
        decorator when asked, then in a Smart decorator unless prevented. */
    static method NewLogger(opt: Ref<Option>) returns (l: Logger)
      ensures fresh(l)
      ensures l.handlers == Compose(opt) && l.trace == []
    {
      var o := if opt.Nil? then ZeroOption else opt.target;
      l := NewNullLogger();

      if o.kind == TFile {
        l.AddHandler(LevelH(o.file, o.levels));
      } else if o.kind == TBare {
        l.AddHandler(BareH(o.file));
      } else if o.kind == TMultiHandler {
        for k := 0 to |o.handlers|
          invariant l.trace == []
          invariant |l.handlers| == k
          invariant forall j :: 0 <= j < k ==> l.handlers[j] == LevelH(o.handlers[j].file, o.handlers[j].levels)
        {
          var v := o.handlers[k];
          l.AddHandler(LevelH(v.file, v.levels));
        }
      }
      assert l.handlers == Terminals(o);

      if o.json {
        l.WrapEach(Json);
      }
      if !o.preventSmart {
        l.WrapEach(Smart);
      }
    }

    /** Replaces every handler, in place, by decorator `d` wrapped around it;
        the list keeps its length and its order. */
    method WrapEach(d: Decorator)
      modifies this
      ensures handlers == WrapAll(d, old(handlers))
      ensures trace == old(trace)
    {
      for k := 0 to |handlers|
        invariant trace == old(trace)
        invariant |handlers| == |old(handlers)|
        invariant forall j :: 0 <= j < k ==> handlers[j] == Wrap(d, old(handlers)[j])
        invariant forall j :: k <= j < |handlers| ==> handlers[j] == old(handlers)[j]
      {
        handlers := handlers[k := Wrap(d, handlers[k])];
      }
    }

    /** Appends `h` after the existing handlers, which keep their order. */
    method AddHandler(h: Handler)
      modifies this
      ensures handlers == old(handlers) + [h]
      ensures trace == old(trace)
    {
      handlers := handlers + [h];
    }

    /** The loop every logging method runs: for each handler in list order, a
        record of the given level and format is built and logged to it. */
    method Dispatch(level: Level, format: string, v: seq<Arg>)
      modifies this
      ensures handlers == old(handlers)
      ensures trace == old(trace) + Round(Log(Record(level, format, v)), |handlers|)
    {
      for i := 0 to |handlers|
        invariant trace == old(trace) + Round(Log(Record(level, format, v)), i)
      {
        trace := trace + [Event(i, Log(Record(level, format, v)))];
      }
    }

    method Print(v: seq<Arg>)
      modifies this
      ensures handlers == old(handlers)
      ensures trace == old(trace) + Round(Log(Record(All, "", v)), |handlers|)
    {
      Dispatch(All, "", v);
    }

    method Println(v: seq<Arg>)
      modifies this
      ensures handlers == old(handlers)
      ensures trace == old(trace) + Round(Log(Record(All, "", v)), |handlers|)
    {
      Dispatch(All, "", v);
    }

    method Printf(format: string, v: seq<Arg>)
      modifies this
      ensures handlers == old(handlers)
      ensures trace == old(trace) + Round(Log(Record(All, format, v)), |handlers|)
    {
      Dispatch(All, format, v);
    }

    method Debug(v: seq<Arg>)
      modifies this
      ensures handlers == old(handlers)
      ensures trace == old(trace) + Round(Log(Record(Level.Debug, "", v)), |handlers|)
    {
      Dispatch(Level.Debug, "", v);
    }

    method Debugf(format: string, v: seq<Arg>)
      modifies this
      ensures handlers == old(handlers)
      ensures trace == old(trace) + Round(Log(Record(Level.Debug, format, v)), |handlers|)
    {
      Dispatch(Level.Debug, format, v);
    }

    method Info(v: seq<Arg>)
      modifies this
      ensures handlers == old(handlers)
      ensures trace == old(trace) + Round(Log(Record(Level.Info, "", v)), |handlers|)
    {
      Dispatch(Level.Info, "", v);
    }

    method Infof(format: string, v: seq<Arg>)
      modifies this
      ensures handlers == old(handlers)
      ensures trace == old(trace) + Round(Log(Record(Level.Info, format, v)), |handlers|)
    {
      Dispatch(Level.Info, format, v);
    }

    method Notice(v: seq<Arg>)
      modifies this
      ensures handlers == old(handlers)
      ensures trace == old(trace) + Round(Log(Record(Level.Notice, "", v)), |handlers|)
    {
      Dispatch(Level.Notice, "", v);
    }

    method Noticef(format: string, v: seq<Arg>)
      modifies this
      ensures handlers == old(handlers)
      ensures trace == old(trace) + Round(Log(Record(Level.Notice, format, v)), |handlers|)
    {
      Dispatch(Level.Notice, format, v);
    }

    method Warning(v: seq<Arg>)
      modifies this
      ensures handlers == old(handlers)
      ensures trace == old(trace) + Round(Log(Record(Level.Warning, "", v)), |handlers|)
    {
      Dispatch(Level.Warning, "", v);
    }

    method Warningf(format: string, v: seq<Arg>)
      modifies this
      ensures handlers == old(handlers)
      ensures trace == old(trace) + Round(Log(Record(Level.Warning, format, v)), |handlers|)
    {
      Dispatch(Level.Warning, format, v);
    }

    method Error(v: seq<Arg>)
      modifies this
      ensures handlers == old(handlers)
      ensures trace == old(trace) + Round(Log(Record(Level.Error, "", v)), |handlers|)
    {
      Dispatch(Level.Error, "", v);
    }

    method Errorf(format: string, v: seq<Arg>)
      modifies this
      ensures handlers == old(handlers)
      ensures trace == old(trace) + Round(Log(Record(Level.Error, format, v)), |handlers|)
    {
      Dispatch(Level.Error, format, v);
    }

    method Alert(v: seq<Arg>)
      modifies this
      ensures handlers == old(handlers)
      ensures trace == old(trace) + Round(Log(Record(Level.Alert, "", v)), |handlers|)
    {
      Dispatch(Level.Alert, "", v);
    }

    method Alertf(format: string, v: seq<Arg>)
      modifies this
      ensures handlers == old(handlers)
      ensures trace == old(trace) + Round(Log(Record(Level.Alert, format, v)), |handlers|)
    {
      Dispatch(Level.Alert, format, v);
    }

    method Critical(v: seq<Arg>)
      modifies this
      ensures handlers == old(handlers)
      ensures trace == old(trace) + Round(Log(Record(Level.Critical, "", v)), |handlers|)
    {
      Dispatch(Level.Critical, "", v);
    }

    method Criticalf(format: string, v: seq<Arg>)
      modifies this
      ensures handlers == old(handlers)
      ensures trace == old(trace) + Round(Log(Record(Level.Critical, format, v)), |handlers|)
    {
      Dispatch(Level.Critical, format, v);
    }

    method Emergency(v: seq<Arg>)
      modifies this
      ensures handlers == old(handlers)
      ensures trace == old(trace) + Round(Log(Record(Level.Emergency, "", v)), |handlers|)
    {
      Dispatch(Level.Emergency, "", v);
    }

    method Emergencyf(format: string, v: seq<Arg>)
      modifies this
      ensures handlers == old(handlers)
      ensures trace == old(trace) + Round(Log(Record(Level.Emergency, format, v)), |handlers|)
    {
      Dispatch(Level.Emergency, format, v);
    }

    /** Reloads the handlers in order and stops at the first one whose reload
        fails, returning its error; `status(i)` is what handler i's own
        reload returns. */
    method Reload(status: nat -> Status) returns (err: Status)
      modifies this
      ensures handlers == old(handlers)
      ensures var o := ReloadFrom(status, 0, |handlers|);
        err == o.err && trace == old(trace) + Round(Call.Reload, o.reloaded)
    {
      err := Ok;
      for i := 0 to |handlers|
        invariant handlers == old(handlers)
        invariant forall j :: 0 <= j < i ==> status(j).Ok?
        invariant ReloadFrom(status, 0, |handlers|) == ReloadFrom(status, i, |handlers|)
        invariant trace == old(trace) + Round(Call.Reload, i)
        invariant err == Ok
      {
        trace := trace + [Event(i, Call.Reload)];
        err := status(i);
        if err.Fail? {
          return;
        }
      }
    }

    /** Closes every handler, in order, with no early exit. */
    method Close()
      modifies this
      ensures handlers == old(handlers)
      ensures trace == old(trace) + Round(Call.Close, |handlers|)
    {
      for i := 0 to |handlers|
        invariant trace == old(trace) + Round(Call.Close, i)
      {
        trace := trace + [Event(i, Call.Close)];
      }
    }
  }
}

/** What a caller can conclude from the contracts alone. */
module Usage {
  import opened Records
  import opened Handlers
  import opened Events
  import opened Logging

  method ReloadThenCloseTwice(h1: Handler, h2: Handler, h3: Handler, e: nat)
  {
    var l := Logger.NewNullLogger();
    l.AddHandler(h1);
    l.AddHandler(h2);
    l.AddHandler(h3);
    assert l.handlers == [h1, h2, h3];

    // Handler 1 fails: handler 0 and 1 are reloaded, handler 2 is not.
    var status := (i: nat) => if i == 1 then Fail(e) else Ok;
    FirstFailureStops(status, 3, 1);
    var err := l.Reload(status);
    assert err == Fail(e);
    assert l.trace == [Event(0, Call.Reload), Event(1, Call.Reload)];

    // Print and Println hand every handler the same record.
    var v := [Arg(42)];
    l.Print(v);
    ghost var afterPrint := l.trace;
    l.Println(v);
    assert l.trace[|afterPrint|..] == afterPrint[2..];

    // Close may be called twice; each call closes all three handlers.
    l.Close();
    l.Close();
    assert l.handlers == [h1, h2, h3];
  }
}
