/** What `NewLogger` builds from an option: terminal handlers chosen by the
    option's type, then wrapped uniformly in a Json decorator when `Json` is
    set, then in a Smart decorator unless `PreventSmart` is set. */
module Composer {
  import opened Handlers
  import opened Options

  /** One level handler per entry of a multi-handler configuration, in order. */
  function PerOption(hs: seq<HandlerOption>): (r: seq<Handler>)
    ensures |r| == |hs|
    ensures forall k :: 0 <= k < |hs| ==> r[k] == LevelH(hs[k].file, hs[k].levels)
  {
    if hs == [] then [] else PerOption(hs[..|hs| - 1]) + [LevelH(hs[|hs| - 1].file, hs[|hs| - 1].levels)]
  }

  /** The terminal handlers the type switch adds: one for TFile and TBare,
      one per entry for TMultiHandler, none for a type matching no case. */
  function Terminals(opt: Option): (r: seq<Handler>)
    ensures forall k :: 0 <= k < |r| ==> IsTerminal(r[k])
    ensures |r| == if opt.kind == TFile || opt.kind == TBare then 1
                   else if opt.kind == TMultiHandler then |opt.handlers|
                   else 0
  {
    if opt.kind == TFile then [LevelH(opt.file, opt.levels)]
    else if opt.kind == TBare then [BareH(opt.file)]
    else if opt.kind == TMultiHandler then PerOption(opt.handlers)
    else []
  }

  /** Every handler of the list replaced by `d` wrapped around it. */
  function WrapAll(d: Decorator, hs: seq<Handler>): (r: seq<Handler>)
    ensures |r| == |hs|
    ensures forall k :: 0 <= k < |hs| ==> r[k] == Wrap(d, hs[k])
  {
    if hs == [] then [] else WrapAll(d, hs[..|hs| - 1]) + [Wrap(d, hs[|hs| - 1])]
  }

  /** The handler list of `NewLogger(opt)`: as long as the terminal list,
      and in its order, each terminal carrying the decorators the option asks for. */
  function Compose(opt: Ref<Option>): (r: seq<Handler>)
    ensures |r| == |Terminals(Deref(opt))|
    ensures forall k :: 0 <= k < |r| ==> r[k] == Decorate(Deref(opt), Terminals(Deref(opt))[k])
  {
    var o := Deref(opt);
    var terminals := Terminals(o);
    var afterJson := if o.json then WrapAll(Json, terminals) else terminals;
    if o.preventSmart then afterJson else WrapAll(Smart, afterJson)
  }

  /** The decorator chain the composer puts around one terminal `t`. It
      adds one layer per decorator asked for, leaves `t` alone exactly when
      neither is asked for, and the chain still leads to `t`'s terminal. */
  function Decorate(o: Option, t: Handler): (h: Handler)
    ensures Depth(h) == Depth(t) + (if o.json then 1 else 0) + (if o.preventSmart then 0 else 1)
    ensures h == t <==> o.preventSmart && !o.json
    ensures Innermost(h) == Innermost(t)
  {
    var j := if o.json then JsonH(t) else t;
    if o.preventSmart then j else SmartH(j)
  }

  /** A nil option behaves as the zero-valued `Option`. */
  lemma NilIsZeroOption()
    ensures Compose(Nil) == Compose(Ptr(ZeroOption))
  {
  }

  /** The type switch: TFile gives exactly one level handler, TBare exactly one
      bare handler, TMultiHandler one level handler per entry in order, any
      other type none. */
  lemma TerminalsByType(o: Option)
    ensures o.kind == TFile ==> Terminals(o) == [LevelH(o.file, o.levels)]
    ensures o.kind == TBare ==> Terminals(o) == [BareH(o.file)]
    ensures o.kind == TMultiHandler ==>
      |Terminals(o)| == |o.handlers| &&
      forall k :: 0 <= k < |o.handlers| ==> Terminals(o)[k] == LevelH(o.handlers[k].file, o.handlers[k].levels)
    ensures o.kind !in {TFile, TBare, TMultiHandler} ==> Terminals(o) == []
  {
  }

  /** Smart is the outermost decorator whenever it applies, Json sits directly
      inside it when both apply, and no decorator is applied that the option
      did not ask for: the handler is its own terminal, decorated. */
  lemma DecoratorOrder(opt: Ref<Option>, k: nat)
    requires k < |Compose(opt)|
    ensures var o, h := Deref(opt), Compose(opt)[k];
      && (!o.preventSmart <==> h.SmartH?)
      && (!o.preventSmart ==> (o.json <==> h.inner.JsonH?) && (!o.json ==> IsTerminal(h.inner)))
      && (o.preventSmart ==> (o.json <==> h.JsonH?) && (o.json ==> IsTerminal(h.inner)) && (!o.json ==> IsTerminal(h)))
      && (!o.preventSmart && o.json ==> IsTerminal(h.inner.inner))
      && h == Decorate(o, Innermost(h))
  {
  }

  /** Every composed handler leads, through its decorators, to the terminal
      built for its position. */
  lemma ComposeReachesTerminal(opt: Ref<Option>, k: nat)
    requires k < |Compose(opt)|
    ensures Innermost(Compose(opt)[k]) == Terminals(Deref(opt))[k]
  {
  }
}
