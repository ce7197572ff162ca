/** JSON values as Python's `json` module hands them over (dicts keep member order),
  * with the dict operations and the truthiness and `str()` rendering the core relies on. */
module Json {
  import opened Wrappers
  import opened Text

  datatype Json =
    | JNull
    | JBool(b: bool)
    | JInt(i: int)
    | JStr(s: string)
    | JArr(items: seq<Json>)
    | JObj(members: seq<Member>)

  datatype Member = Member(key: string, value: Json)

  /** The value stored under `key`, first occurrence first. */
  function Get(members: seq<Member>, key: string): Option<Json> {
    if members == [] then None
    else if members[0].key == key then Some(members[0].value)
    else Get(members[1..], key)
  }

  /** `Get` finds nothing exactly when no member has the key, and what it finds is a member's value. */
  lemma {:induction false} GetSpec(members: seq<Member>, key: string)
    ensures Get(members, key).None? <==> forall i :: 0 <= i < |members| ==> members[i].key != key
    ensures Get(members, key).Some? ==> exists i :: 0 <= i < |members| && members[i] == Member(key, Get(members, key).value)
  {
    if members != [] && members[0].key != key {
      GetSpec(members[1..], key);
      if Get(members, key).Some? {
        var i :| 0 <= i < |members[1..]| && members[1..][i] == Member(key, Get(members, key).value);
        assert members[i + 1] == members[1..][i];
      }
      forall i | 0 < i < |members| ensures members[i] == members[1..][i - 1] {}
    }
  }

  /** Python `d.get(key, default)`; None stands for the AttributeError raised when `d` is not a dict. */
  function DictGet(d: Json, key: string, default: Json): (r: Option<Json>)
    ensures r.Some? <==> d.JObj?
  {
    match d
    case JObj(ms) => Some(Get(ms, key).GetOr(default))
    case _ => None
  }

  /** Python truthiness: None, False, 0, "" and empty containers are false. */
  predicate Truthy(j: Json) {
    match j
    case JNull => false
    case JBool(b) => b
    case JInt(i) => i != 0
    case JStr(s) => s != ""
    case JArr(items) => items != []
    case JObj(ms) => ms != []
  }

  /** Python `str(v)`, as an f-string renders a value. */
  function Str(j: Json): string {
    if j.JStr? then j.s else Repr(j)
  }

  /** Python `repr(v)`; a string is written between single quotes without re-escaping. */
  function Repr(j: Json): string
    decreases j, 1
  {
    match j
    case JNull => "None"
    case JBool(b) => if b then "True" else "False"
    case JInt(i) => IntToString(i)
    case JStr(s) => "'" + s + "'"
    case JArr(items) => "[" + ReprItems(items) + "]"
    case JObj(ms) => "{" + ReprMembers(ms) + "}"
  }

  function ReprItems(items: seq<Json>): string
    decreases items, 0
  {
    if items == [] then ""
    else Repr(items[0]) + (if |items| == 1 then "" else ", " + ReprItems(items[1..]))
  }

  function ReprMembers(ms: seq<Member>): string
    decreases ms, 0
  {
    if ms == [] then ""
    else
      "'" + ms[0].key + "': " + Repr(ms[0].value)
      + (if |ms| == 1 then "" else ", " + ReprMembers(ms[1..]))
  }

  /** Following a path of dict keys, as `d["a"]["b"]` does. */
  function Lookup(j: Json, path: seq<string>): Option<Json> {
    if path == [] then Some(j)
    else match j
      case JObj(ms) =>
        GetSpec(ms, path[0]);
        (match Get(ms, path[0])
         case Some(v) => Lookup(v, path[1..])
         case None => None)
      case _ => None
  }

  /** A key's first occurrence decides what `Get` finds. */
  lemma {:induction false} GetFirst(ms: seq<Member>, i: nat)
    requires i < |ms| && forall j :: 0 <= j < i ==> ms[j].key != ms[i].key
    ensures Get(ms, ms[i].key) == Some(ms[i].value)
  {
    if i > 0 {
      GetFirst(ms[1..], i - 1);
    }
  }

  /** One step of a path: through the member at position `i`. */
  lemma LookupStep(ms: seq<Member>, i: nat, rest: seq<string>)
    requires i < |ms| && forall j :: 0 <= j < i ==> ms[j].key != ms[i].key
    ensures Lookup(JObj(ms), [ms[i].key] + rest) == Lookup(ms[i].value, rest)
  {
    GetFirst(ms, i);
    assert ([ms[i].key] + rest)[1..] == rest;
  }
}
