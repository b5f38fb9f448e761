/** `PrefDelegate`: a property delegate that stores a primitive-typed
    property in the app's preference store under the property's own name.
    The store is a map from key to a typed entry; reads and writes dispatch
    on the runtime type of the default value and of the written value. */
module PrefDelegates {
  import opened Wrappers
  import opened KotlinInts

  /** A Kotlin `Float`, kept as its 32-bit pattern: nothing computes with it. */
  type FloatBits = b: int | 0 <= b < 0x1_0000_0000

  /** A stored preference entry, tagged with the type it was written as. */
  datatype Pref =
    | IntPref(i: Int32)
    | LongPref(l: Int64)
    | FloatPref(f: FloatBits)
    | StringPref(s: string)
    | BooleanPref(b: bool)

  /** The preference store. */
  type Preferences = map<string, Pref>

  /** A runtime value as the delegate sees it: `null`, one of the five
      primitive types, or an object of any other class. */
  datatype Value =
    | Null
    | IntValue(i: Int32)
    | LongValue(l: Int64)
    | FloatValue(f: FloatBits)
    | StringValue(s: string)
    | BooleanValue(b: bool)
    | OtherValue(className: string)

  datatype PrefError =
    | IllegalState(message: string)
    /** The key holds an entry of another type than the one asked for. */
    | ClassCast(key: string)

  const GetMessage: string := "This type can not be stored in Preferences"
  const SetMessage: string := "Only primitive types can be stored into Preferences"

  /** The reflected property being delegated; only its name is used. */
  datatype Property = Property(name: string)

  datatype PrefDelegate = PrefDelegate(defaultValue: Value)

  /** The five types the store can hold. */
  predicate IsPrimitive(v: Value) {
    v.IntValue? || v.LongValue? || v.FloatValue? || v.StringValue? || v.BooleanValue?
  }

  /** `v` and the entry `p` have the same primitive type. */
  predicate SameType(v: Value, p: Pref) {
    match p
    case IntPref(_) => v.IntValue?
    case LongPref(_) => v.LongValue?
    case FloatPref(_) => v.FloatValue?
    case StringPref(_) => v.StringValue?
    case BooleanPref(_) => v.BooleanValue?
  }

  /** The value an entry reads back as. */
  function FromPref(p: Pref): (v: Value)
    ensures IsPrimitive(v) && SameType(v, p)
  {
    match p
    case IntPref(i) => IntValue(i)
    case LongPref(l) => LongValue(l)
    case FloatPref(f) => FloatValue(f)
    case StringPref(s) => StringValue(s)
    case BooleanPref(b) => BooleanValue(b)
  }

  /** The `when (value)` dispatch: the entry a primitive value is stored as,
      `None` for `null` and every other class. */
  function ToPref(v: Value): (r: Option<Pref>)
    ensures r.Some? <==> IsPrimitive(v)
    ensures r.Some? ==> SameType(v, r.value) && FromPref(r.value) == v
  {
    match v
    case StringValue(s) => Some(StringPref(s))
    case IntValue(i) => Some(IntPref(i))
    case BooleanValue(b) => Some(BooleanPref(b))
    case LongValue(l) => Some(LongPref(l))
    case FloatValue(f) => Some(FloatPref(f))
    case _ => None
  }

  /** Storing and reading back are inverse on entries. */
  lemma ToPrefFromPref(p: Pref)
    ensures ToPref(FromPref(p)) == Some(p)
  {
  }

  /** A typed getter of the store (`getInt`, `getLong`, `getFloat`,
      `getString`, `getBoolean`) with its default: the stored entry when it
      has the requested type, the default when the key is absent, and a
      class-cast failure when the key holds another type. */
  function Read(prefs: Preferences, key: string, default: Pref): (r: Result<Pref, PrefError>)
    ensures r.Success? ==> SameType(FromPref(default), r.value)
  {
    if key !in prefs then Success(default)
    else if SameType(FromPref(default), prefs[key]) then Success(prefs[key])
    else Failure(ClassCast(key))
  }

  /** `getValue`: reads the entry named after the property with the typed
      getter chosen by the default's runtime type; any default that is not
      one of the five primitives, `null` included, is an illegal state. */
  function GetValue(d: PrefDelegate, prefs: Preferences, property: Property): (r: Result<Value, PrefError>)
    ensures !IsPrimitive(d.defaultValue) ==> r == Failure(IllegalState(GetMessage))
    ensures IsPrimitive(d.defaultValue) && property.name !in prefs ==> r == Success(d.defaultValue)
    ensures IsPrimitive(d.defaultValue) && property.name in prefs ==>
      if SameType(d.defaultValue, prefs[property.name])
      then r == Success(FromPref(prefs[property.name]))
      else r == Failure(ClassCast(property.name))
  {
    var key := property.name;
    match ToPref(d.defaultValue)
    case None => Failure(IllegalState(GetMessage))
    case Some(default) =>
      match Read(prefs, key, default)
      case Success(p) => Success(FromPref(p))
      case Failure(e) => Failure(e)
  }

  /** The store after a call, and the exception the call threw, if any. */
  datatype Outcome = Outcome(prefs: Preferences, thrown: Option<PrefError>)

  /** `setValue`: a primitive value is written under the property's name,
      tagged with its type, and committed; `null` or any other class throws
      before the edit is applied, leaving the store as it was. */
  function SetValue(d: PrefDelegate, prefs: Preferences, property: Property, value: Value): (r: Outcome)
    ensures r.thrown.None? <==> IsPrimitive(value)
    ensures r.thrown.Some? ==> r.thrown.value == IllegalState(SetMessage) && r.prefs == prefs
    ensures r.thrown.None? ==>
      && r.prefs.Keys == prefs.Keys + {property.name}
      && FromPref(r.prefs[property.name]) == value
      && (forall k :: k in prefs && k != property.name ==> r.prefs[k] == prefs[k])
  {
    var key := property.name;
    match ToPref(value)
    case None => Outcome(prefs, Some(IllegalState(SetMessage)))
    case Some(p) => Outcome(prefs[key := p], None)
  }

  /** The key of a read is the property's name: a read sees nothing of the
      store but that one entry. */
  lemma GetValueReadsOnlyItsKey(d: PrefDelegate, prefs: Preferences, other: Preferences, property: Property)
    requires property.name in prefs <==> property.name in other
    requires property.name in prefs ==> prefs[property.name] == other[property.name]
    ensures GetValue(d, prefs, property) == GetValue(d, other, property)
  {
  }

  /** A value written through the delegate reads back through any delegate
      whose default has the same type. */
  lemma SetThenGet(d: PrefDelegate, prefs: Preferences, property: Property, value: Value, reader: PrefDelegate)
    requires IsPrimitive(value)
    requires IsPrimitive(reader.defaultValue) && SameType(reader.defaultValue, ToPref(value).value)
    ensures GetValue(reader, SetValue(d, prefs, property, value).prefs, property) == Success(value)
  {
  }

  /** Reading a written entry with a default of another primitive type is a
      class-cast failure. */
  lemma SetThenGetOtherType(d: PrefDelegate, prefs: Preferences, property: Property, value: Value, reader: PrefDelegate)
    requires IsPrimitive(value) && IsPrimitive(reader.defaultValue)
    requires !SameType(reader.defaultValue, ToPref(value).value)
    ensures GetValue(reader, SetValue(d, prefs, property, value).prefs, property) == Failure(ClassCast(property.name))
  {
  }

  /** A write is invisible to every other property. */
  lemma SetThenGetOther(d: PrefDelegate, prefs: Preferences, property: Property, value: Value, reader: PrefDelegate, other: Property)
    requires other.name != property.name
    ensures GetValue(reader, SetValue(d, prefs, property, value).prefs, other) == GetValue(reader, prefs, other)
  {
  }

  /** The last write to a property wins, even when the first one threw. */
  lemma SetTwice(d: PrefDelegate, prefs: Preferences, property: Property, v1: Value, v2: Value)
    requires IsPrimitive(v2)
    ensures SetValue(d, SetValue(d, prefs, property, v1).prefs, property, v2) == SetValue(d, prefs, property, v2)
  {
  }
}
