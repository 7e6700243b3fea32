/** The Python values the adapter handles: the values of keyword-argument
    dictionaries and of JSON event payloads, Python truthiness, and `or`. */
module PyValues {
  import opened Wrappers

  /** A value as it appears in a kwargs dict or a JSON payload. */
  datatype Value =
    | Str(s: string)
    | Int(i: int)
    | Real(r: real)
    | Bool(b: bool)
    | Null
    | StrList(items: seq<string>)

  /** A dictionary with string keys. */
  type Dict = map<string, Value>

  /** Python truthiness of an optional string: None and "" are falsy. */
  predicate Truthy(o: Option<string>) {
    o.Some? && o.value != ""
  }

  /** Python truthiness of an optional list: None and [] are falsy. */
  predicate TruthyList(o: Option<seq<string>>) {
    o.Some? && o.value != []
  }

  /** Python's `x or y` on optional strings: `x` when it is truthy, else `y`. */
  function Or(x: Option<string>, y: Option<string>): (r: Option<string>)
    ensures Truthy(r) <==> Truthy(x) || Truthy(y)
    ensures Truthy(x) ==> r == x
    ensures !Truthy(x) ==> r == y
  {
    if Truthy(x) then x else y
  }

  /** `xs[0] or xs[1] or ... or xs[n-1]`, evaluated left to right: the first
      truthy operand, or the last operand when none is truthy. */
  function OrChain(xs: seq<Option<string>>): Option<string>
    requires |xs| >= 1
  {
    if |xs| == 1 then xs[0] else Or(xs[0], OrChain(xs[1..]))
  }

  /** The chain picks the first truthy operand and is falsy only when every
      operand is. */
  lemma {:induction false} OrChainFirstTruthy(xs: seq<Option<string>>)
    requires |xs| >= 1
    ensures Truthy(OrChain(xs)) <==> exists i :: 0 <= i < |xs| && Truthy(xs[i])
    ensures forall i :: 0 <= i < |xs| && Truthy(xs[i]) && (forall j :: 0 <= j < i ==> !Truthy(xs[j]))
              ==> OrChain(xs) == xs[i]
    ensures (forall i :: 0 <= i < |xs| ==> !Truthy(xs[i])) ==> OrChain(xs) == xs[|xs| - 1]
  {
    if |xs| > 1 {
      OrChainFirstTruthy(xs[1..]);
      if Truthy(xs[0]) {
        assert OrChain(xs) == xs[0];
      } else {
        assert OrChain(xs) == OrChain(xs[1..]);
        forall i | 0 <= i < |xs| && Truthy(xs[i]) && (forall j :: 0 <= j < i ==> !Truthy(xs[j]))
          ensures OrChain(xs) == xs[i]
        {
          assert i > 0;
          assert xs[1..][i - 1] == xs[i];
          forall j | 0 <= j < i - 1 ensures !Truthy(xs[1..][j]) {
            assert xs[1..][j] == xs[j + 1];
          }
        }
        if exists i :: 0 <= i < |xs| && Truthy(xs[i]) {
          var i :| 0 <= i < |xs| && Truthy(xs[i]);
          assert i > 0 && xs[1..][i - 1] == xs[i];
        }
        if exists i :: 0 <= i < |xs[1..]| && Truthy(xs[1..][i]) {
          var i :| 0 <= i < |xs[1..]| && Truthy(xs[1..][i]);
          assert xs[1..][i] == xs[i + 1];
        }
        if forall i :: 0 <= i < |xs| ==> !Truthy(xs[i]) {
          forall i | 0 <= i < |xs[1..]| ensures !Truthy(xs[1..][i]) {
            assert xs[1..][i] == xs[i + 1];
          }
        }
      }
    }
  }
}
