/** Values as the Python client sees them once a response body has been decoded
    by the `json` module, and the Python exceptions the client lets escape. */
module PyValues {

  datatype Option<T> = None | Some(value: T)

  /** A decoded JSON document. `Null` is Python's `None`. An object keeps its
      members in document order. Member names are not required to be distinct:
      `j[key]` reads the first member of a name (`FindMember`), which is what
      a decoded `dict` gives whenever the names are distinct, the only case
      the server's documents present. Numbers are integers in this model. */
  datatype Json =
    | Null
    | Bool(b: bool)
    | Num(n: int)
    | Str(s: string)
    | Arr(elems: seq<Json>)
    | Obj(members: seq<(string, Json)>)

  /** The exceptions that can escape the client's methods. */
  datatype Exc =
    | RequestException   // transport failure raised by `requests`
    | JsonDecodeError    // `response.json()` on a body that is not JSON text
    | KeyError(key: string)
    | TypeError
    | AttributeError     // a method called on a value that lacks it (`None.get`)
    | EofError           // `input()` at end of input

  /** A Python call either returns a value or raises. */
  datatype Outcome<T> = Returned(value: T) | Raised(exc: Exc)

  /** Position of the first member named `key`, if any. */
  function FindMember(members: seq<(string, Json)>, key: string): (r: Option<nat>)
    ensures r.Some? ==> r.value < |members| && members[r.value].0 == key
    ensures r.Some? ==> forall i :: 0 <= i < r.value ==> members[i].0 != key
    ensures r.None? ==> forall i :: 0 <= i < |members| ==> members[i].0 != key
  {
    if |members| == 0 then None
    else if members[0].0 == key then Some(0)
    else match FindMember(members[1..], key)
      case None => None
      case Some(i) => Some(i + 1)
  }

  /** Python's `j[key]` on a decoded document. */
  function Subscript(j: Json, key: string): (r: Outcome<Json>)
    ensures !j.Obj? ==> r == Raised(TypeError)
    ensures j.Obj? && r.Raised? ==> r.exc == KeyError(key)
  {
    match j
    case Obj(ms) =>
      (match FindMember(ms, key)
       case None => Raised(KeyError(key))
       case Some(i) => Returned(ms[i].1))
    case _ => Raised(TypeError)
  }

  /** `j[key]` raises TypeError on a non-object, KeyError when no member has
      that name, and otherwise returns the value of a member with that name. */
  lemma SubscriptMeaning(j: Json, key: string)
    ensures var r := Subscript(j, key);
            && (!j.Obj? ==> r == Raised(TypeError))
            && (j.Obj? ==> (r.Returned? <==> exists i :: 0 <= i < |j.members| && j.members[i].0 == key))
            && (j.Obj? && r.Raised? ==> r.exc == KeyError(key))
            && (r.Returned? ==> exists i :: 0 <= i < |j.members| && j.members[i] == (key, r.value))
  {
  }

  /** Python's truth value of a decoded document (`while more:`). */
  predicate Truthy(j: Json)
    ensures !Truthy(j) <==> j in {Null, Bool(false), Num(0), Str(""), Arr([]), Obj([])}
  {
    match j
    case Null => false
    case Bool(b) => b
    case Num(n) => n != 0
    case Str(s) => s != ""
    case Arr(a) => a != []
    case Obj(ms) => ms != []
  }

  /** The elements `list.extend(j)` appends: a list's elements, a string's
      characters, an object's member names; other values are not iterable. */
  function Iterate(j: Json): (r: Outcome<seq<Json>>)
    ensures r.Raised? <==> j.Null? || j.Bool? || j.Num?
    ensures r.Raised? ==> r.exc == TypeError
    ensures j.Arr? ==> r == Returned(j.elems)
    ensures j.Str? ==> r.Returned? && |r.value| == |j.s|
    ensures j.Obj? ==> r.Returned? && |r.value| == |j.members|
  {
    match j
    case Arr(a) => Returned(a)
    case Str(s) => Returned(seq(|s|, i requires 0 <= i < |s| => Str([s[i]])))
    case Obj(ms) => Returned(seq(|ms|, i requires 0 <= i < |ms| => Str(ms[i].0)))
    case _ => Raised(TypeError)
  }

  /** What `list.extend` appends, element by element: the i-th character of
      a string as a one-character string, the i-th member name of an object. */
  lemma IterateContents(j: Json)
    ensures j.Str? ==> forall i :: 0 <= i < |j.s| ==> Iterate(j).value[i] == Str([j.s[i]])
    ensures j.Obj? ==> forall i :: 0 <= i < |j.members| ==> Iterate(j).value[i] == Str(j.members[i].0)
  {
  }
}
