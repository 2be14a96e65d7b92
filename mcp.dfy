/** The argument readers of the MCP server (mcp.go) and what its tools read
    with them.

    A tool call's `arguments` is whatever JSON decoding into Go's `any`
    produced: an object becomes a map, a string a string, a number a
    `float64`. The generic type assertion `v.(T)` is a parameter `cast`
    that yields the value when `v` holds a `T`. */
module Mcp {
  import opened Nostr
  import Zaps

  /** A Go value held in an `any`. */
  datatype Any =
    | GoString(s: string)
    | GoFloat64(f: real)        // a float64, held as an exact real: rounding is not modelled
    | GoBool(b: bool)
    | GoUint64(n: Zaps.uint64)
    | GoOther

  /** `r.Params.Arguments`: a map, or anything else. */
  datatype Args = ArgsMap(m: map<string, Any>) | NotAMap

  /** `optional[T]`: the value and true when the arguments are a map that
      holds a `T` under the key; the zero value and false otherwise. */
  function Optional<T>(args: Args, p: string, cast: Any -> Option<T>, zero: T): (r: (T, bool))
    ensures r.1 <==> args.ArgsMap? && p in args.m && cast(args.m[p]).Some?
    ensures r.1 ==> r.0 == cast(args.m[p]).value
    ensures !r.1 ==> r.0 == zero
  {
    if !args.ArgsMap? then (zero, false)
    else if p !in args.m then (zero, false)
    else
      match cast(args.m[p])
      case None => (zero, false)
      case Some(v) => (v, true)
  }

  /** `required[T]`: the value when the arguments are a map holding a `T`
      under the key; otherwise the zero value. */
  function Required<T(==)>(args: Args, p: string, cast: Any -> Option<T>, zero: T): (r: T)
    ensures !args.ArgsMap? || p !in args.m || cast(args.m[p]).None? ==> r == zero
    ensures args.ArgsMap? && p in args.m && cast(args.m[p]).Some? ==> r == cast(args.m[p]).value
  {
    if !args.ArgsMap? then zero
    else if p !in args.m then zero
    else
      match cast(args.m[p])
      case None => zero
      case Some(v) => if v == zero then zero else v
  }

  /** `required` is the value part of `optional`: its check for the zero
      value changes nothing, and a missing argument cannot be told from a
      zero one. */
  lemma RequiredIsOptionalValue<T>(args: Args, p: string, cast: Any -> Option<T>, zero: T)
    ensures Required(args, p, cast, zero) == Optional(args, p, cast, zero).0
    ensures Required(args, p, cast, zero) == zero <==>
              !Optional(args, p, cast, zero).1 || Optional(args, p, cast, zero).0 == zero
  {
  }

  /** A stored zero and a missing key read the same. */
  lemma RequiredMissingIsZero<T>(p: string, v: Any, cast: Any -> Option<T>, zero: T)
    requires cast(v) == Some(zero)
    ensures Required(ArgsMap(map[p := v]), p, cast, zero) == Required(ArgsMap(map[]), p, cast, zero)
    ensures Optional(ArgsMap(map[p := v]), p, cast, zero) != Optional(ArgsMap(map[]), p, cast, zero)
  {
  }

  /** The type assertions the tools use. */
  function AsString(v: Any): Option<string> {
    match v
    case GoString(s) => Some(s)
    case _ => None
  }

  function AsUint64(v: Any): Option<Zaps.uint64> {
    match v
    case GoUint64(n) => Some(n)
    case _ => None
  }

  // ---------------------------------------------------------------------
  // The tools' arguments

  /** The event `favorite_nostr_event` reacts to, as written: the tool
      declares the argument "id" but reads "note". */
  function FavoriteTargetAsWritten(args: Args): string {
    Required(args, "note", AsString, "")
  }

  /** A call that passes the declared argument reacts to nothing: the
      target read is empty. */
  lemma FavoriteIgnoresDeclaredId(id: string)
    requires id != ""
    ensures FavoriteTargetAsWritten(ArgsMap(map["id" := GoString(id)])) == ""
    ensures FavoriteTarget(ArgsMap(map["id" := GoString(id)])) == id
  {
  }

  /** The event `favorite_nostr_event` is meant to react to: the declared
      argument "id". */
  function FavoriteTarget(args: Args): (r: string)
    ensures args.ArgsMap? && "id" in args.m && args.m["id"].GoString? ==> r == args.m["id"].s
    ensures !(args.ArgsMap? && "id" in args.m && args.m["id"].GoString?) ==> r == ""
  {
    Required(args, "id", AsString, "")
  }

  /** JSON decoding into `any` never produces a `uint64`. */
  predicate FromJson(args: Args) {
    args.ArgsMap? ==> forall k :: k in args.m ==> !args.m[k].GoUint64?
  }

  /** The amount `send_satoshi` zaps, as written: `required[uint64]` of a
      JSON number. */
  function ZapAmountAsWritten(args: Args): Zaps.uint64 {
    Required(args, "amount", AsUint64, 0 as Zaps.uint64)
  }

  /** Whatever amount a client sends, the zap is for 0 satoshis. */
  lemma ZapAmountAlwaysZero(args: Args)
    requires FromJson(args)
    ensures ZapAmountAsWritten(args) == 0
  {
  }

  /** Go's `uint64(f)` for a number in range: the integer part. */
  function Uint64Of(f: real): (n: Zaps.uint64)
    requires 0.0 <= f < 18446744073709551616.0
    ensures n as real <= f < n as real + 1.0
  {
    f.Floor as Zaps.uint64
  }

  /** The amount `send_satoshi` is meant to zap: the JSON number read as a
      `float64` and converted; anything else is 0. */
  function ZapAmount(args: Args): (n: Zaps.uint64)
    ensures FromJson(args) && args.ArgsMap? && "amount" in args.m && args.m["amount"].GoFloat64?
            && 0.0 <= args.m["amount"].f < 18446744073709551616.0 ==>
              n as real <= args.m["amount"].f < n as real + 1.0
  {
    match Optional(args, "amount", (v: Any) => if v.GoFloat64? then Some(v.f) else None, 0.0)
    case (f, true) => if 0.0 <= f < 18446744073709551616.0 then Uint64Of(f) else 0
    case (_, false) => 0
  }

  /** A whole number of satoshis sent as a JSON number is zapped as sent. */
  lemma ZapAmountRecoversSats(args: Args, sats: Zaps.uint64)
    requires args == ArgsMap(map["amount" := GoFloat64(sats as real)])
    ensures ZapAmount(args) == sats
    ensures sats != 0 ==> ZapAmountAsWritten(args) != sats
  {
    var n := ZapAmount(args);
    assert n as real <= sats as real < n as real + 1.0;
  }
}
