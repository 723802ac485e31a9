/** Handlers as a tree: two kinds of terminal, each owning an output file,
    and two kinds of decorator, each wrapping exactly one inner handler. */
module Handlers {

  datatype Handler =
    | LevelH(file: string, levels: seq<string>)  // NewLevelHandler(file, levels...)
    | BareH(file: string)                         // NewBareHandler(file)
    | JsonH(inner: Handler)                       // NewJsonHandler(inner)
    | SmartH(inner: Handler)                      // NewSmartHandler(inner)

  predicate IsTerminal(h: Handler) {
    h.LevelH? || h.BareH?
  }

  /** The two decorators the composer can apply. */
  datatype Decorator = Json | Smart

  function Wrap(d: Decorator, h: Handler): Handler {
    match d
    case Json => JsonH(h)
    case Smart => SmartH(h)
  }

  /** The terminal at the bottom of a decorator chain: the handler that owns
      the file every record sent to `h` ends up at. */
  function Innermost(h: Handler): (t: Handler)
    ensures IsTerminal(t)
    ensures IsTerminal(h) ==> t == h
  {
    match h
    case JsonH(inner) => Innermost(inner)
    case SmartH(inner) => Innermost(inner)
    case _ => h
  }

  /** The number of decorators between `h` and its terminal. */
  function Depth(h: Handler): nat {
    match h
    case JsonH(inner) => Depth(inner) + 1
    case SmartH(inner) => Depth(inner) + 1
    case _ => 0
  }

  /** Wrapping a handler in a decorator adds exactly one layer and keeps the
      terminal its chain leads to. */
  lemma WrapKeepsInnermost(d: Decorator, h: Handler)
    ensures Innermost(Wrap(d, h)) == Innermost(h)
    ensures Depth(Wrap(d, h)) == Depth(h) + 1
  {
  }
}
