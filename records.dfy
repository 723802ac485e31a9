/** The value one logging call hands to each handler: a level, a format
    template (empty for the non-`f` methods) and the call's arguments. */
module Records {

  /** The severities of the facade, plus the unleveled sentinel `All` that the
      print family (Print, Println, Printf) uses. */
  datatype Level = All | Debug | Info | Notice | Warning | Error | Critical | Alert | Emergency

  /** One variadic argument. How it is rendered belongs to the handlers, so the
      model keeps it opaque: only its identity matters. */
  datatype Arg = Arg(id: nat)

  /** What `NewRecord(level, format, v)` builds. */
  datatype Record = Record(level: Level, format: string, args: seq<Arg>)
}
