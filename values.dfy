/**
 * Ruby values as the formatter sees them: the options hashes it merges and
 * reads, the objects stored in them, and the Grape endpoint that carries them.
 */
module Values {

  datatype Option<+T> = None | Some(value: T)

  /** Ruby exceptions that the formatter lets escape to its caller. */
  datatype Error =
    | KeyError       // Hash#fetch on a missing key
    | TypeError      // Hash#merge given something that is not a Hash
    | NoMethodError  // a method called on an object that does not define it

  datatype Result<+T> = Ok(value: T) | Err(error: Error)

  /**
   * A Ruby object. A class constant is represented by its name; an object
   * that responds to `call` (a Proc or lambda) by the value calling it yields.
   */
  datatype Value =
    | Nil
    | Bool(b: bool)
    | Int(i: int)
    | Str(s: string)
    | Sym(name: string)
    | Class(name: string)
    | Proc(result: Value)
    | List(elems: seq<Value>)
    | Hash(entries: map<Value, Value>)
    | EndpointObj(endpoint: Endpoint)

  type Options = map<Value, Value>

  /**
   * The parts of a Grape endpoint the formatter reads. `innermostNamespace`
   * is the `space` of the innermost enclosing namespace, if there is one;
   * Grape's two ways of finding it (`namespace_stackable` and the older
   * `settings.peek`) are folded into this one field.
   */
  datatype Endpoint = Endpoint(
    defaultSerializerOptions: Value,
    namespaceOptions: Options,
    routeOptions: Options,
    options: Options,
    innermostNamespace: Option<Value>)

  /** Ruby truthiness: only `nil` and `false` are false. */
  predicate Truthy(v: Value) {
    v != Nil && v != Bool(false)
  }

  /** `h[k]`: a missing key reads as nil. */
  function Get(h: Options, k: Value): Value {
    if k in h then h[k] else Nil
  }

  /** `hashes.reduce(:merge)`: a left fold in which the right operand wins. */
  function Merge(hashes: seq<Options>): (r: Options)
    requires |hashes| >= 1
    ensures forall k :: k in r <==> exists i :: 0 <= i < |hashes| && k in hashes[i]
  {
    if |hashes| == 1 then hashes[0]
    else
      var init := Merge(hashes[..|hashes| - 1]);
      assert forall k, i :: 0 <= i < |hashes| - 1 && k in hashes[i] ==> k in hashes[..|hashes| - 1][i];
      init + hashes[|hashes| - 1]
  }

  /** A key takes its value from the last hash that holds it. */
  lemma {:induction false} MergeLastWins(hashes: seq<Options>)
    requires |hashes| >= 1
    ensures forall i, k :: 0 <= i < |hashes| && k in hashes[i] && (forall j :: i < j < |hashes| ==> k !in hashes[j])
                           ==> k in Merge(hashes) && Merge(hashes)[k] == hashes[i][k]
  {
    if |hashes| > 1 {
      var init := hashes[..|hashes| - 1];
      MergeLastWins(init);
      forall i, k | 0 <= i < |hashes| && k in hashes[i] && (forall j :: i < j < |hashes| ==> k !in hashes[j])
        ensures k in Merge(hashes) && Merge(hashes)[k] == hashes[i][k]
      {
        if i < |hashes| - 1 {
          assert k in init[i] && forall j :: i < j < |init| ==> k !in init[j];
        }
      }
    }
  }
}
