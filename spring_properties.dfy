/**
 * SpringProperties: a store of local properties, loaded once from a `spring.properties` file and
 * changeable at run time, that is consulted before the JVM's system properties.
 */
module SpringCore {
  import opened Wrappers
  import opened JavaText

  /** What System.getProperty does for a key that has an entry: return its value, or throw, as a security manager may make it. */
  datatype SystemLookup = Defined(value: string) | Denied

  /** Boolean.TRUE.toString(). */
  const TrueString: string := "true"

  /**
   * Boolean.parseBoolean: true exactly for a non-null string equal to "true" ignoring case,
   * that is, four characters spelling t, r, u, e in either case.
   */
  function ParseBoolean(s: Option<string>): (b: bool)
    ensures b <==> (s.Some? && |s.value| == 4 && s.value[0] in "tT" && s.value[1] in "rR" &&
                    s.value[2] in "uU" && s.value[3] in "eE")
  {
    s.Some? && EqualsIgnoreCase(TrueString, s.value)
  }

  class SpringProperties {
    /** The local properties: initially those loaded from `spring.properties`, then as changed by SetProperty and SetFlag. */
    var localProperties: map<string, string>
    /** The JVM's system properties, read only; System.getProperty returns null for a key without an entry. */
    const systemProperties: map<string, SystemLookup>

    /** The store after its static initializer has loaded `loaded` from the properties file. */
    constructor (loaded: map<string, string>, systemProperties: map<string, SystemLookup>)
      ensures localProperties == loaded && this.systemProperties == systemProperties
    {
      localProperties := loaded;
      this.systemProperties := systemProperties;
    }

    /** The system property for `key`, with a failing lookup degraded to no value. */
    function SystemProperty(key: string): Option<string>
    {
      if key in systemProperties && systemProperties[key].Defined? then Some(systemProperties[key].value) else None
    }

    /** The value getProperty returns: the local entry if there is one, else the system property. */
    function Property(key: string): (r: Option<string>)
      reads this
      ensures key in localProperties ==> r == Some(localProperties[key])
      ensures key !in localProperties && key in systemProperties && systemProperties[key].Defined? ==>
        r == Some(systemProperties[key].value)
      ensures r.None? <==> key !in localProperties && (key !in systemProperties || !systemProperties[key].Defined?)
    {
      if key in localProperties then Some(localProperties[key]) else SystemProperty(key)
    }

    /** The value getFlag returns. */
    function Flag(key: string): (b: bool)
      reads this
      ensures b ==> Property(key).Some? && |Property(key).value| == 4
      ensures Property(key) == Some("true") ==> b
    {
      ParseBoolean(Property(key))
    }

    /** setProperty: store `value` locally under `key`, or remove the local entry when `value` is null. */
    method SetProperty(key: string, value: Option<string>)
      modifies this`localProperties
      ensures value.Some? ==> localProperties == old(localProperties)[key := value.value]
      ensures value.None? ==> localProperties == old(localProperties) - {key}
      ensures value.Some? ==> Property(key) == value
      ensures value.None? ==> Property(key) == SystemProperty(key)
      ensures forall k :: k != key ==> Property(k) == old(Property(k))
    {
      if value.Some? {
        localProperties := localProperties[key := value.value];
      } else {
        localProperties := localProperties - {key};
      }
    }

    /**
     * getProperty: the local entry for `key` if any, else the system property; a system lookup
     * that throws gives no value instead of propagating.
     */
    method GetProperty(key: string) returns (value: Option<string>)
      ensures key in localProperties ==> value == Some(localProperties[key])
      ensures key !in localProperties && key in systemProperties && systemProperties[key].Defined? ==>
        value == Some(systemProperties[key].value)
      ensures key !in localProperties && (key !in systemProperties || systemProperties[key].Denied?) ==> value == None
      ensures value == Property(key)
    {
      value := if key in localProperties then Some(localProperties[key]) else None;
      if value.None? {
        if key in systemProperties {
          match systemProperties[key]
          case Defined(v) => value := Some(v);
          case Denied => value := None;
        }
      }
    }

    /** setFlag: store "true" locally under `key`. */
    method SetFlag(key: string)
      modifies this`localProperties
      ensures localProperties == old(localProperties)[key := TrueString]
      ensures Flag(key)
      ensures forall k :: k != key ==> Property(k) == old(Property(k))
    {
      localProperties := localProperties[key := TrueString];
    }

    /** getFlag: whether the property for `key` is "true", ignoring case; false when it has no value. */
    method GetFlag(key: string) returns (flag: bool)
      ensures flag == Flag(key)
      ensures flag ==> Property(key).Some?
      ensures Property(key) == Some(TrueString) ==> flag
    {
      var value := GetProperty(key);
      flag := ParseBoolean(value);
    }
  }
}
