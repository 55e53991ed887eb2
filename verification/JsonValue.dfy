/** JSON values and their accessors. */
module JsonValue {
  import opened Options
  import opened Numbers

  datatype Json =
    | Null
    | Bool(b: bool)
    | Number(num: Double)
    | String(str: string)
    | Array(items: seq<Json>)
    | Object(members: map<string, Json>)
  {
    function AsBool(): Option<bool> {
      if Bool? then Some(b) else None
    }

    function AsString(): Option<string> {
      if String? then Some(str) else None
    }

    function AsInt64(): Option<int> {
      if Number? && num.Finite? && PrintsAsInteger(num.value) then Some(ToInt64(num.value.Floor)) else None
    }

    function AsUint64(): Option<nat> {
      if Number? && num.Finite? && num.value.Floor as real == num.value && 0.0 <= num.value <= TWO53 as real
      then Some(num.value.Floor) else None
    }

    function Find(key: string): Option<Json> {
      if Object? && key in members then Some(members[key]) else None
    }
  }

  /** Every number in the value is finite (`Json::is_finite`). */
  ghost predicate IsFinite(v: Json) {
    match v
    case Number(num) => num.Finite?
    case Array(items) => forall i | 0 <= i < |items| :: IsFinite(items[i])
    case Object(members) => forall k | k in members :: IsFinite(members[k])
    case _ => true
  }

  /** Every number in the value is a finite double. */
  ghost predicate Representable(v: Json, conv: Conversion) {
    match v
    case Number(num) => num.Finite? && conv.IsDouble(num.value)
    case Array(items) => forall i | 0 <= i < |items| :: Representable(items[i], conv)
    case Object(members) => forall k | k in members :: Representable(members[k], conv)
    case _ => true
  }

  /** The value with each number replaced by what survives printing. */
  ghost function Surviving(v: Json): Json {
    match v
    case Number(Finite(d)) => Number(Finite(Survivor(d)))
    case Array(items) => Array(seq(|items|, i requires 0 <= i < |items| => Surviving(items[i])))
    case Object(members) => Object(map k | k in members :: Surviving(members[k]))
    case _ => v
  }

  /** No number in the value is 2^63. */
  ghost predicate NoOverflow(v: Json) {
    match v
    case Number(num) => num != Finite(TWO63 as real)
    case Array(items) => forall i | 0 <= i < |items| :: NoOverflow(items[i])
    case Object(members) => forall k | k in members :: NoOverflow(members[k])
    case _ => true
  }

  lemma {:induction false} SurvivesIff(v: Json)
    ensures Surviving(v) == v <==> NoOverflow(v)
  {
    match v
    case Array(items) =>
      forall i | 0 <= i < |items| ensures Surviving(items[i]) == items[i] <==> NoOverflow(items[i]) {
        SurvivesIff(items[i]);
      }
    case Object(members) =>
      forall k | k in members ensures Surviving(members[k]) == members[k] <==> NoOverflow(members[k]) {
        SurvivesIff(members[k]);
      }
    case _ =>
  }
}
