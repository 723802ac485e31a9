/** The configuration `NewLogger` is built from. */
module Options {

  newtype uint8 = x: int | 0 <= x < 0x100

  // Handler-type codes. Their numeric values are declared outside the
  // modelled file; the model fixes three distinct codes.
  const TFile: uint8 := 1
  const TBare: uint8 := 2
  const TMultiHandler: uint8 := 3

  /** One (destination, level names) pair of a multi-handler configuration. */
  datatype HandlerOption = HandlerOption(file: string, levels: seq<string>)

  /** The `Option` struct; `kind` is its `Type` field. Level names are kept as
      the strings the caller wrote; they are interpreted by the handlers. */
  datatype Option = Option(
    kind: uint8,
    file: string,
    levels: seq<string>,
    handlers: seq<HandlerOption>,
    preventSmart: bool,
    json: bool)

  /** A Go pointer: either nil or the value it points to. */
  datatype Ref<T> = Nil | Ptr(target: T)

  /** Go's zero value of `Option`, i.e. `&Option{}`. */
  const ZeroOption := Option(0, "", [], [], false, false)

  /** The option `NewLogger` goes on with: a nil pointer stands for `&Option{}`. */
  function Deref(opt: Ref<Option>): Option {
    if opt.Nil? then ZeroOption else opt.target
  }
}
