/** The `Dict[str, Any]` contexts the engine passes around, restricted to
    the values it puts into them or reads from them: strings, integers and
    the `sacred_timing` record the controller attaches. */
module Context {
  import opened Text

  datatype Value =
    | Str(s: string)
    | Int(i: int)
      /** `{"hour": .., "minute": .., "second": .., "is_sacred_hour": ..}`. */
    | Timing(hour: nat, minute: nat, second: nat, isSacredHour: bool)

  type Context = map<string, Value>

  /** `str(v)`, as an f-string renders a context value. */
  function Render(v: Value): string {
    match v
    case Str(s) => s
    case Int(i) => IntToString(i)
    case Timing(h, m, sec, sacred) =>
      "{'hour': " + NatToString(h) + ", 'minute': " + NatToString(m) + ", 'second': " + NatToString(sec)
        + ", 'is_sacred_hour': " + (if sacred then "True" else "False") + "}"
  }

  /** `context.get(key, default)`. */
  function Get(ctx: Context, key: string, default: Value): (v: Value)
    ensures key in ctx ==> v == ctx[key]
    ensures key !in ctx ==> v == default
  {
    if key in ctx then ctx[key] else default
  }

  /** `word in str(ctx).lower()` for a word made of lower-case letters: such a
      word can only occur inside the text of a key or of a non-integer value,
      since the quotes, separators and digits of the rendering hold no
      letters. */
  predicate ReprMentions(ctx: Context, word: string) {
    exists k :: k in ctx
      && (Contains(ToLower(k), word) || (!ctx[k].Int? && Contains(ToLower(Render(ctx[k])), word)))
  }
}
