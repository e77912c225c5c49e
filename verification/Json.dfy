/** JSON values, with the accessors of `serde_json::Value` that the wire code uses.
    Numbers are integers: no modelled code reads a fraction. */
module Json {
  import opened Common

  datatype Json =
    | Null
    | Bool(b: bool)
    | Num(n: int)
    | Str(s: string)
    | Arr(items: seq<Json>)
    | Obj(fields: map<string, Json>)

  function Get(v: Json, key: string): Option<Json> {
    if v.Obj? && key in v.fields then Some(v.fields[key]) else None
  }

  function GetIn(v: Option<Json>, key: string): Option<Json> {
    if v.Some? then Get(v.value, key) else None
  }

  function AsStr(v: Option<Json>): Option<string> {
    if v.Some? && v.value.Str? then Some(v.value.s) else None
  }

  function AsArr(v: Option<Json>): Option<seq<Json>> {
    if v.Some? && v.value.Arr? then Some(v.value.items) else None
  }

  function AsU64(v: Option<Json>): Option<nat> {
    if v.Some? && v.value.Num? && v.value.n >= 0 then Some(v.value.n) else None
  }

  /** The string at `key`, or the default when it is missing or not a string. */
  function StrAt(v: Json, key: string, default: string): string { AsStr(Get(v, key)).GetOr(default) }

  /** The `type` discriminator of a wire object. */
  function TypeOf(v: Json): string { StrAt(v, "type", "") }

  /** A JSON library: reading text and writing values. */
  datatype Codec = Codec(fromText: string -> Option<Json>, toText: Json -> string)

  /** Written values read back as themselves. */
  ghost predicate Faithful(c: Codec) {
    forall v :: c.fromText(c.toText(v)) == Some(v)
  }

  /** Re-serialises an argument string in the library's own spelling; text that is not JSON stays. */
  function Canonical(c: Codec, s: string): string {
    match c.fromText(s)
    case Some(v) => c.toText(v)
    case None => s
  }

  /** What an argument string means. */
  datatype Args = Parsed(v: Json) | Raw(text: string)

  function ArgsOf(c: Codec, s: string): Args {
    match c.fromText(s)
    case Some(v) => Parsed(v)
    case None => Raw(s)
  }

  lemma CanonicalKeepsMeaning(c: Codec, s: string)
    requires Faithful(c)
    ensures ArgsOf(c, Canonical(c, s)) == ArgsOf(c, s)
    ensures Canonical(c, Canonical(c, s)) == Canonical(c, s)
  {
    if c.fromText(s).Some? {
      assert c.fromText(c.toText(c.fromText(s).value)) == c.fromText(s);
    }
  }
}
