# mlog logger: composition and fan-out

A Dafny model of the facade of the `mlog` leveled logger (`mlog/logger.go`).
A `Logger` owns an ordered list of handlers. `NewLogger` builds that list from
an `Option`: first the terminal handlers chosen by the option's type, then a
Json decorator around each handler when `Json` is set, then a Smart decorator
around each unless `PreventSmart` is set. Every logging method builds one
record per handler and logs it to each handler in list order. `Reload` stops
at the first handler whose reload fails and returns that error. `Close`
closes every handler.

Layout:

- `records.dfy` (`Records`): levels, including the unleveled `All` used by the
  print family, opaque arguments, and the record a logging call builds.
- `handlers.dfy` (`Handlers`): handlers as a tree. `LevelH` and `BareH` are
  terminals. `JsonH` and `SmartH` are decorators that each wrap one handler.
- `options.dfy` (`Options`): the `Option` and `HandlerOption` structs, the
  handler-type codes, and nil pointers as `Ref.Nil`.
- `composer.dfy` (`Composer`): the handler list `NewLogger` builds, as pure
  functions, and the lemmas about it.
- `events.dfy` (`Events`): what the logger does to its handlers, as events
  `Event(position, Log(record) | Reload | Close)`. It also holds the
  specification of a reload that stops at the first failure.
- `logger.dfy` (`Logging`, `Usage`): the `Logger` class and its methods. The
  handler list is a `seq` field that the methods reassign in place. A ghost
  `trace` records every call the logger makes on its handlers.
  `Usage` is a client that relies only on the contracts.

The calls into handlers (`h.Log`, `h.Reload`, `h.Close`) run code outside this
file. Each call is recorded as an event in `trace`. What a handler's `Reload`
returns is given by a parameter `status: nat -> Status`, read at the
handler's position in the list.

## Model

| member | source | states |
|---|---|---|
| `Handlers.WrapKeepsInnermost` | mlog/logger.go:80-90 | wrapping a handler in a Json or Smart decorator adds exactly one layer and keeps the terminal its chain leads to |
| `Composer.PerOption` | mlog/logger.go:73-77 | the multi-handler loop gives exactly one `LevelH(v.File, v.Levels)` per entry of `Handlers`, same count, same order |
| `Composer.Terminals` | mlog/logger.go:68-78 | the type switch adds only terminal handlers: one for `TFile` or `TBare`, one per `Handlers` entry for `TMultiHandler`, none for any other type |
| `Composer.WrapAll` | mlog/logger.go:80-90 | a wrapping pass keeps the list's length and order and replaces element k by the decorator wrapped around the old element k |
| `Composer.Decorate` | mlog/logger.go:80-90 | the chain put around one terminal has one layer per decorator asked for (Json if `Json`, Smart unless `PreventSmart`); it is the terminal itself exactly when neither applies; it still leads to that terminal |
| `Composer.Compose` | mlog/logger.go:61-93 | the handler list of `NewLogger(opt)` is as long as the terminal list, for every option including one with no terminal; element k is terminal k with its decorators |
| `Composer.NilIsZeroOption` | mlog/logger.go:61-64 | a nil option composes the same handler list as the zero-valued `Option` |
| `Composer.TerminalsByType` | mlog/logger.go:68-78 | `TFile` gives exactly `[LevelH(File, Levels)]`; `TBare` gives exactly `[BareH(File)]`; `TMultiHandler` gives one level handler per entry, in order; any other type gives no handler |
| `Composer.DecoratorOrder` | mlog/logger.go:80-90 | a composed handler is a Smart decorator iff `PreventSmart` is false; the Json decorator is present iff `Json` is set; Json sits directly inside Smart when both apply; under them is a terminal, so nothing else is wrapped (`h == Decorate(o, Innermost(h))`) |
| `Composer.ComposeReachesTerminal` | mlog/logger.go:68-90 | the terminal under composed handler k is the terminal built for position k |
| `Events.Round` | mlog/logger.go:100-102 | a round over n handlers is exactly n calls, the i-th made on handler i |
| `Events.RoundOnceEach` | mlog/logger.go:223-226 | in a round, each of the n handlers receives the call exactly once, and no other handler or call appears |
| `Events.ReloadFrom` | mlog/logger.go:213-221 | the result is nil iff every handler's reload succeeds, and then all are reloaded; otherwise the error is that of the last handler reloaded, and every handler before it succeeded |
| `Events.FirstFailureStops` | mlog/logger.go:214-217 | if handler i is the first to fail, handlers 0..i are reloaded, none after i, and i's error is returned |
| `Logging.Logger.NewNullLogger` | mlog/logger.go:55-59 | a fresh logger with no handlers, on which no handler has been called |
| `Logging.Logger.NewLogger` | mlog/logger.go:61-93 | a fresh logger whose handler list is `Composer.Compose(opt)`, with no handler called during construction |
| `Logging.Logger.WrapEach` | mlog/logger.go:80-90 | the in-place loop `l.handlers[k] = wrap(v)` leaves the list equal to `WrapAll` of the old list and makes no handler call |
| `Logging.Logger.AddHandler` | mlog/logger.go:95-97 | appends exactly one handler at the end; the existing handlers keep their order; no handler call is made |
| `Logging.Logger.Dispatch` | mlog/logger.go:99-103 | one `Log` per handler, in list order, each with a record of the given level, format and arguments; the handler list is unchanged |
| `Logging.Logger.Print` | mlog/logger.go:99-103 | one `Log` per handler, in order, with record (`All`, `""`, v); handler list unchanged |
| `Logging.Logger.Println` | mlog/logger.go:105-109 | the same trace as `Print`: record (`All`, `""`, v) to every handler in order |
| `Logging.Logger.Printf` | mlog/logger.go:111-115 | one `Log` per handler, in order, with record (`All`, format, v) |
| `Logging.Logger.Debug` | mlog/logger.go:117-121 | one `Log` per handler, in order, with record (`Debug`, `""`, v) |
| `Logging.Logger.Debugf` | mlog/logger.go:123-127 | one `Log` per handler, in order, with record (`Debug`, format, v) |
| `Logging.Logger.Info` | mlog/logger.go:129-133 | one `Log` per handler, in order, with record (`Info`, `""`, v) |
| `Logging.Logger.Infof` | mlog/logger.go:135-139 | one `Log` per handler, in order, with record (`Info`, format, v) |
| `Logging.Logger.Notice` | mlog/logger.go:141-145 | one `Log` per handler, in order, with record (`Notice`, `""`, v) |
| `Logging.Logger.Noticef` | mlog/logger.go:147-151 | one `Log` per handler, in order, with record (`Notice`, format, v) |
| `Logging.Logger.Warning` | mlog/logger.go:153-157 | one `Log` per handler, in order, with record (`Warning`, `""`, v) |
| `Logging.Logger.Warningf` | mlog/logger.go:159-163 | one `Log` per handler, in order, with record (`Warning`, format, v) |
| `Logging.Logger.Error` | mlog/logger.go:165-169 | one `Log` per handler, in order, with record (`Error`, `""`, v) |
| `Logging.Logger.Errorf` | mlog/logger.go:171-175 | one `Log` per handler, in order, with record (`Error`, format, v) |
| `Logging.Logger.Alert` | mlog/logger.go:177-181 | one `Log` per handler, in order, with record (`Alert`, `""`, v) |
| `Logging.Logger.Alertf` | mlog/logger.go:183-187 | one `Log` per handler, in order, with record (`Alert`, format, v) |
| `Logging.Logger.Critical` | mlog/logger.go:189-193 | one `Log` per handler, in order, with record (`Critical`, `""`, v) |
| `Logging.Logger.Criticalf` | mlog/logger.go:195-199 | one `Log` per handler, in order, with record (`Critical`, format, v) |
| `Logging.Logger.Emergency` | mlog/logger.go:201-205 | one `Log` per handler, in order, with record (`Emergency`, `""`, v) |
| `Logging.Logger.Emergencyf` | mlog/logger.go:207-211 | one `Log` per handler, in order, with record (`Emergency`, format, v) |
| `Logging.Logger.Reload` | mlog/logger.go:213-221 | returns the error of `Events.ReloadFrom` and reloads exactly the handlers it counts, in order; the handler list is unchanged |
| `Logging.Logger.Close` | mlog/logger.go:223-227 | one `Close` per handler, in list order, with no early exit; the handler list is unchanged |

## Left out

- The bodies of `NewLevelHandler`, `NewBareHandler`, `NewJsonHandler`, `NewSmartHandler` and `NewRecord` are not part of this model. They are the `Handler` constructors and the `Record` datatype. Level filtering, JSON encoding and Smart enrichment are not modelled.
- The values of `TFile`, `TBare` and `TMultiHandler` are declared outside `mlog/logger.go`. The model fixes the distinct codes 1, 2 and 3. No lemma depends on which codes they are.
- The handler list of `NewLogger(nil)` does depend on those codes. The zero-valued `Option` has type 0. With the codes 1, 2 and 3 that matches no case, so the model gives an empty logger. If `TFile` were 0, Go would instead build one Smart-wrapped level handler for file `""`.
- `Handler` is a closed datatype with the four kinds `NewLogger` builds. Go's `AddHandler` accepts any implementation of the `Handler` interface, and a caller-supplied handler type cannot be represented here.
- A nil entry in `Option.Handlers` (`[]*HandlerOption`) makes Go dereference nil and panic. The model takes the entries as values and has no such entry.
- Level names in `Levels` stay uninterpreted strings, and record arguments are opaque values. Their parsing and rendering happen in code outside this file.
- File I/O, errors from opening files in the handler constructors, and anything a handler does inside `Log`, `Reload` and `Close` are not modelled. A handler's reload result comes from the `status` parameter.
- `Logging.Logger.Dispatch`: each handler gets an equal record, but the model cannot tell whether the record is a fresh object or a shared one. Records are values, so the Go code's per-handler `NewRecord` allocation is not observable.
- Concurrent callers and write serialisation inside the terminals are not modelled. Every method runs to completion as one step.
- The `StdLogger` and `LevelLogger` interfaces (mlog/logger.go:3-40) declare signatures only. The `Logger` class has every method they list.
