/** Shared vocabulary of the model: optional values, results, the errors a request
    handler ends with, JSON values, socket traffic, and Python truthiness. */
module Common {

  datatype Option<+T> = None | Some(value: T)

  datatype Result<+T, +E> = Success(value: T) | Failure(error: E)

  /** How a handler ends when it does not return normally. */
  datatype Error =
    | HttpError(status: int, detail: string)  // an HTTPException raised on purpose
    | Uncaught(kind: string)                   // any other Python exception escaping the handler

  /** A decoded JSON document. */
  datatype Json =
    | JNull
    | JBool(b: bool)
    | JInt(i: int)
    | JStr(s: string)
    | JArr(items: seq<Json>)
    | JObj(fields: map<string, Json>)

  /** Python's `d.get(key)` on a decoded JSON object. */
  function Field(fields: map<string, Json>, key: string): Option<Json>
  {
    if key in fields then Some(fields[key]) else None
  }

  /** Python's `d.get(key, default)`. */
  function FieldOr(fields: map<string, Json>, key: string, default: Json): Json
  {
    if key in fields then fields[key] else default
  }

  /** Identity of a WebSocket object; Python compares sockets by identity. */
  type SocketId = nat

  /** One observable action on a socket, in the order it happened. */
  datatype Delivery<M> =
    | Accepted(to: SocketId)
    | Sent(to: SocketId, msg: M)
    | Closed(to: SocketId, code: int, reason: string)

  /** Close code Starlette uses when `close` is called without one. */
  const NormalClosure := 1000
  /** Close code for a policy violation. */
  const PolicyViolation := 1008
  /** Close code for an internal server error. */
  const InternalError := 1011

  /** The deliveries of one message to each of `targets`, in list order. */
  function Fanout<M>(targets: seq<SocketId>, m: M): (r: seq<Delivery<M>>)
    ensures |r| == |targets|
  {
    if targets == [] then [] else Fanout(targets[..|targets| - 1], m) + [Sent(targets[|targets| - 1], m)]
  }

  /** The i-th delivery of a fan-out goes to the i-th target and carries the message. */
  lemma {:induction false} FanoutAt<M>(targets: seq<SocketId>, m: M, i: nat)
    requires i < |targets|
    ensures Fanout(targets, m)[i] == Sent(targets[i], m)
  {
    var p := targets[..|targets| - 1];
    if i < |p| {
      FanoutAt(p, m, i);
      assert p[i] == targets[i];
    }
  }

  /** Index of the first occurrence of `x` in `s`. */
  function FirstIndex<T(==)>(s: seq<T>, x: T): (k: nat)
    requires x in s
    ensures k < |s| && s[k] == x
    ensures forall j :: 0 <= j < k ==> s[j] != x
  {
    if s[0] == x then 0 else 1 + FirstIndex(s[1..], x)
  }

  /** Python's `list.remove(x)` when `x` is present: drops the first occurrence only. */
  function RemoveFirst<T(==)>(s: seq<T>, x: T): (r: seq<T>)
    requires x in s
    ensures |r| == |s| - 1
  {
    var k := FirstIndex(s, x);
    s[..k] + s[k + 1..]
  }

  /** `list.remove(x)` takes away exactly one copy of `x` and keeps every other element. */
  lemma RemoveFirstCounts<T>(s: seq<T>, x: T)
    requires x in s
    ensures multiset(RemoveFirst(s, x)) == multiset(s) - multiset{x}
  {
    var k := FirstIndex(s, x);
    assert s == s[..k] + [x] + s[k + 1..];
  }

  /** Removing an element just appended to a list that did not hold it restores the list. */
  lemma RemoveFirstOfAppended<T>(s: seq<T>, x: T)
    requires x !in s
    ensures RemoveFirst(s + [x], x) == s
  {
    assert FirstIndex(s + [x], x) == |s|;
    assert (s + [x])[..|s|] == s;
  }

  /** Python's `x or default` on an optional integer: None and 0 are both falsy. */
  function IntOr(x: Option<int>, default: int): int
  {
    if x.Some? && x.value != 0 then x.value else default
  }

  /** Python's `x or default` on an optional string: None and "" are both falsy. */
  function StrOr(x: Option<string>, default: string): string
  {
    if x.Some? && x.value != "" then x.value else default
  }

  /** Truthiness of an optional integer column (None and 0 are falsy). */
  predicate IntTruthy(x: Option<int>)
  {
    x.Some? && x.value != 0
  }
}
