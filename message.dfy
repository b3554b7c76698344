/**
 * The message envelope `Bernard\Message\PlainMessage`: an immutable value made
 * of a name and an argument array. Every reader is total; every writer raises
 * a `LogicException` and changes nothing.
 */
module Message {
  import opened Wrappers

  /** Argument keys. PHP array keys are the strings used by `get`/`has`. */
  type Key = string

  /** The PHP values an argument can hold; `Null` is a value of its own, so
      "present with null" and "absent" are different states of the array. */
  datatype Value = Null | Bool(b: bool) | Int(i: int) | Str(s: string)

  /** The exception every writer raises. */
  datatype LogicError = LogicException(message: string)

  const ImmutableMessage: string := "Message is immutable"

  datatype PlainMessage = PlainMessage(name: string, arguments: map<Key, Value>)
  {
    /** `getName()` */
    function GetName(): string { name }

    /** `all()` */
    function All(): map<Key, Value> { arguments }

    /** `has($name)`: `array_key_exists`, which is true for a key bound to null. */
    predicate Has(key: Key) { key in arguments }

    /** `get($name)`: the argument when the key exists, null otherwise. */
    function Get(key: Key): Value { if Has(key) then arguments[key] else Null }

    /** `offsetGet`, the `$message[$key]` reader. */
    function OffsetGet(offset: Key): Value { Get(offset) }

    /** `offsetExists`, the `isset($message[$key])` reader. */
    predicate OffsetExists(offset: Key) { Has(offset) }

    /** `__get`, the `$message->key` reader. */
    function MagicGet(property: Key): Value { Get(property) }

    /** `__isset`, the `isset($message->key)` reader. */
    predicate MagicIsset(property: Key) { Has(property) }

    /** `offsetSet`: always raises, whatever the offset and value. */
    method OffsetSet(offset: Key, value: Value) returns (r: Outcome<LogicError>)
      ensures r == Fail(LogicException(ImmutableMessage))
    {
      r := Fail(LogicException(ImmutableMessage));
    }

    /** `offsetUnset`: always raises, whatever the offset. */
    method OffsetUnset(offset: Key) returns (r: Outcome<LogicError>)
      ensures r == Fail(LogicException(ImmutableMessage))
    {
      r := Fail(LogicException(ImmutableMessage));
    }

    /** `__set`: always raises, whatever the property and value. */
    method MagicSet(property: Key, value: Value) returns (r: Outcome<LogicError>)
      ensures r == Fail(LogicException(ImmutableMessage))
    {
      r := Fail(LogicException(ImmutableMessage));
    }

    /** `__unset`: always raises, whatever the property. */
    method MagicUnset(property: Key) returns (r: Outcome<LogicError>)
      ensures r == Fail(LogicException(ImmutableMessage))
    {
      r := Fail(LogicException(ImmutableMessage));
    }
  }

  /** `new PlainMessage($name, $arguments)`. */
  function Construct(name: string, arguments: map<Key, Value>): PlainMessage
  {
    PlainMessage(name, arguments)
  }

  /** `new PlainMessage($name)`: the arguments default to the empty array. */
  function ConstructNamed(name: string): PlainMessage
  {
    Construct(name, map[])
  }

  /** The constructor stores its arguments: `getName` and `all` give them back. */
  lemma ConstructorStores(name: string, arguments: map<Key, Value>)
    ensures Construct(name, arguments).GetName() == name
    ensures Construct(name, arguments).All() == arguments
  {
  }

  /** Without arguments, `all()` is the empty array and no key exists. */
  lemma DefaultArgumentsEmpty(name: string, key: Key)
    ensures ConstructNamed(name).GetName() == name
    ensures ConstructNamed(name).All() == map[]
    ensures !ConstructNamed(name).Has(key) && ConstructNamed(name).Get(key) == Null
  {
  }

  /** `has` holds exactly for the keys of `all()`, null-valued ones included. */
  lemma HasIffKey(m: PlainMessage, key: Key)
    ensures m.Has(key) <==> key in m.All()
  {
  }

  /** `get` never fails: it yields the stored value for a key that `has`
      reports, and null for any other key. */
  lemma GetTotal(m: PlainMessage, key: Key)
    ensures m.Has(key) ==> m.Get(key) == m.All()[key]
    ensures !m.Has(key) ==> m.Get(key) == Null
    ensures m.Get(key) == Null <==> !m.Has(key) || m.All()[key] == Null
  {
  }

  /** The array-access and magic-property readers are aliases of `get` and `has`. */
  lemma AliasesAgree(m: PlainMessage, key: Key)
    ensures m.OffsetGet(key) == m.Get(key) && m.MagicGet(key) == m.Get(key)
    ensures m.OffsetExists(key) == m.Has(key) && m.MagicIsset(key) == m.Has(key)
  {
  }

  /** `get` alone cannot tell a missing key from a key bound to null; `has` can. */
  lemma GetConflatesAbsentAndNull()
    ensures var m := Construct("job", map["present" := Null]);
            m.Get("present") == m.Get("absent") == Null &&
            m.Has("present") && !m.Has("absent")
  {
  }

  /** Any sequence of attempted writes leaves every reader as it was: the writers
      all raise and the value they were called on is what the caller still holds. */
  datatype Write = SetOffset(offset: Key, value: Value) | UnsetOffset(offset: Key)
                 | SetProperty(property: Key, value: Value) | UnsetProperty(property: Key)

  method AttemptWrites(m: PlainMessage, writes: seq<Write>) returns (after: PlainMessage, errors: seq<Outcome<LogicError>>)
    ensures |errors| == |writes|
    ensures forall i :: 0 <= i < |errors| ==> errors[i] == Fail(LogicException(ImmutableMessage))
    ensures after.GetName() == m.GetName() && after.All() == m.All()
    ensures forall key :: after.Has(key) == m.Has(key) && after.Get(key) == m.Get(key)
  {
    after, errors := m, [];
    for i := 0 to |writes|
      invariant |errors| == i
      invariant forall j :: 0 <= j < i ==> errors[j] == Fail(LogicException(ImmutableMessage))
      invariant after == m
    {
      var r;
      match writes[i] {
        case SetOffset(k, v) => r := after.OffsetSet(k, v);
        case UnsetOffset(k) => r := after.OffsetUnset(k);
        case SetProperty(k, v) => r := after.MagicSet(k, v);
        case UnsetProperty(k) => r := after.MagicUnset(k);
      }
      errors := errors + [r];
    }
  }
}
