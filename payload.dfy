/**
 * The payload that AdRoll.prototype.track builds before it dispatches:
 * the fold of the (already aliased) properties under snake-cased keys,
 * followed by the optional `user_id` field (lib/index.js:98-108).
 */
module Payload {

  /** An optional value; `None` stands for JavaScript's `undefined`/`null`. */
  datatype Option<+T> = None | Some(value: T)

  /**
   * A property value. The adapter copies values without inspecting them,
   * so only their identity matters to the model.
   */
  datatype Value = Str(s: string) | Num(n: real)

  /** One property of a track call, in the key order the facade yields it. */
  datatype Property = Property(key: string, value: Value)

  /** A payload object handed to the vendor, keyed by field name. */
  type Payload = map<string, Value>

  /** The field that carries the current user's id. */
  const UserIdKey: string := "user_id"

  /** JavaScript truthiness of an optional string: present and non-empty. */
  predicate Truthy(s: Option<string>) {
    s.Some? && s.value != ""
  }

  /** The keys the fold writes: every property key, snake-cased. */
  function SnakedKeys(snake: string -> string, props: seq<Property>): (keys: set<string>) {
    set i | 0 <= i < |props| :: snake(props[i].key)
  }

  /**
   * The result of folding `props` left to right into a new empty object,
   * storing each value under the snake-cased form of its key. A later
   * property overwrites an earlier one whose key snake-cases the same.
   */
  function Folded(snake: string -> string, props: seq<Property>): (data: Payload)
    ensures data.Keys == SnakedKeys(snake, props)
  {
    if |props| == 0 then map[]
    else
      var n := |props| - 1;
      var prefix := Folded(snake, props[..n]);
      assert SnakedKeys(snake, props) == SnakedKeys(snake, props[..n]) + {snake(props[n].key)} by {
        forall k | k in SnakedKeys(snake, props)
          ensures k in SnakedKeys(snake, props[..n]) + {snake(props[n].key)}
        {
          var i :| 0 <= i < |props| && snake(props[i].key) == k;
          if i < n { assert props[..n][i] == props[i]; }
        }
      }
      prefix[snake(props[n].key) := props[n].value]
  }

  /**
   * The fold keeps, for every written key, the value of the LAST property
   * whose key snake-cases to it.
   */
  lemma {:induction false} FoldedLastWins(snake: string -> string, props: seq<Property>, i: int)
    requires 0 <= i < |props|
    requires forall j :: i < j < |props| ==> snake(props[j].key) != snake(props[i].key)
    ensures snake(props[i].key) in Folded(snake, props)
    ensures Folded(snake, props)[snake(props[i].key)] == props[i].value
  {
    var n := |props| - 1;
    if i < n {
      assert props[..n][i] == props[i];
      forall j | i < j < n
        ensures snake(props[..n][j].key) != snake(props[..n][i].key)
      {
        assert props[..n][j] == props[j];
      }
      FoldedLastWins(snake, props[..n], i);
    }
  }

  /**
   * The payload after the fold and the user id step: `user_id` is set to
   * the current user's id exactly when that id is truthy, and every other
   * field is the fold's.
   */
  function BasePayload(snake: string -> string, props: seq<Property>, userId: Option<string>): (data: Payload)
    ensures Truthy(userId) ==> UserIdKey in data && data[UserIdKey] == Str(userId.value)
    ensures !Truthy(userId) ==> (UserIdKey in data <==> UserIdKey in SnakedKeys(snake, props))
    ensures !Truthy(userId) ==> data == Folded(snake, props)
    ensures data - {UserIdKey} == Folded(snake, props) - {UserIdKey}
  {
    var folded := Folded(snake, props);
    if Truthy(userId) then folded[UserIdKey := Str(userId.value)] else folded
  }
}
