/** JSON values as Python holds them after `json.loads`: objects keep their key order, numbers their printed text. */
module Json {
  datatype Json =
    | Null
    | Bool(b: bool)
    | Num(text: string)
    | Str(s: string)
    | Arr(items: seq<Json>)
    | Obj(fields: seq<Field>)

  datatype Field = Field(key: string, value: Json)

  /** Python's `bool(value)`. */
  predicate Truthy(j: Json) {
    match j
    case Null => false
    case Bool(b) => b
    case Num(text) => text != "0" && text != "0.0" && text != "-0.0"
    case Str(s) => s != ""
    case Arr(items) => items != []
    case Obj(fields) => fields != []
  }

  /** `_coerce_str_list`: the strings and numbers of a list as text; a Python bool is an int. */
  function CoerceItems(items: seq<Json>): seq<string> {
    if items == [] then []
    else
      (match items[0]
       case Str(s) => [s]
       case Num(text) => [text]
       case Bool(b) => [if b then "True" else "False"]
       case _ => []) + CoerceItems(items[1..])
  }

  function CoerceStrList(j: Json): seq<string> {
    if j.Arr? then CoerceItems(j.items) else []
  }

  function StrArr(texts: seq<string>): Json {
    Arr(seq(|texts|, i requires 0 <= i < |texts| => Str(texts[i])))
  }

  /** A list of strings survives being stored in an artifact and read back. */
  lemma {:induction false} CoerceStrArr(texts: seq<string>)
    ensures CoerceStrList(StrArr(texts)) == texts
  {
    var items := StrArr(texts).items;
    if texts != [] {
      CoerceStrArr(texts[1..]);
      assert items[1..] == StrArr(texts[1..]).items;
    }
  }
}
