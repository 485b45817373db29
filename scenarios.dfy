/** What the pass makes of concrete classes: the repairs it makes and the ones it refuses. */
module FixerScenarios {
  import opened Optional
  import opened CodeModel
  import opened PrimitiveFixer

  const Void := JType("void", true)

  /** A one-getter, one-setter class whose setter takes the wrapper of the getter's primitive. */
  lemma WrapperPairFixed(getterName: string, prop: string, prim: JType, boxed: JType)
    requires getterName == "is" + prop || getterName == "get" + prop
    requires prim.isPrimitive && prim.name in Boxed && Boxed[prim.name] == boxed.name
    ensures FixClass([MethodSig(getterName, prim, []), MethodSig("set" + prop, Void, [boxed])])
      == [MethodSig(if boxed.name == "Boolean" then "get" + prop else getterName, boxed, []),
          MethodSig("set" + prop, Void, [boxed])]
  {
    var ms := [MethodSig(getterName, prim, []), MethodSig("set" + prop, Void, [boxed])];
    PropertyNameOfPrefixed(prop);
    SetterNameIsNoGetterName(prop);
    GetterNameIsNoSetter(getterName, prop);
    FirstSetterWins(ms, 0, 1);
  }

  /** int getAge() with void setAge(Integer): the getter returns Integer, its name is kept. */
  lemma AgeScenario()
    ensures var integer := JType("Integer", false);
      FixClass([MethodSig("getAge", JType("int", true), []), MethodSig("setAge", Void, [integer])])
      == [MethodSig("getAge", integer, []), MethodSig("setAge", Void, [integer])]
  {
    assert "getAge" == "get" + "Age" && "setAge" == "set" + "Age";
    WrapperPairFixed("getAge", "Age", JType("int", true), JType("Integer", false));
  }

  /** boolean isActive() with void setActive(Boolean): the getter returns Boolean and becomes getActive. */
  lemma ActiveScenario()
    ensures var boxed := JType("Boolean", false);
      FixClass([MethodSig("isActive", JType("boolean", true), []), MethodSig("setActive", Void, [boxed])])
      == [MethodSig("getActive", boxed, []), MethodSig("setActive", Void, [boxed])]
  {
    assert "isActive" == "is" + "Active";
    assert "setActive" == "set" + "Active";
    assert "getActive" == "get" + "Active";
    WrapperPairFixed("isActive", "Active", JType("boolean", true), JType("Boolean", false));
  }

  /** long getId() with void setId(long): the setter takes the primitive, so nothing changes. */
  lemma IdScenario()
    ensures var ms := [MethodSig("getId", JType("long", true), []),
                       MethodSig("setId", Void, [JType("long", true)])];
      FixClass(ms) == ms
  {
    var ms := [MethodSig("getId", JType("long", true), []),
               MethodSig("setId", Void, [JType("long", true)])];
    assert "getId" == "get" + "Id";
    ChangedIffSetterExists(ms, 0);
  }

  /** A setter that returns something other than void is not a setter, even with the right parameter. */
  lemma FluentSetterScenario()
    ensures var ms := [MethodSig("getCount", JType("int", true), []),
                       MethodSig("setCount", JType("Builder", false), [JType("Integer", false)])];
      FixClass(ms) == ms
  {
    var ms := [MethodSig("getCount", JType("int", true), []),
               MethodSig("setCount", JType("Builder", false), [JType("Integer", false)])];
    assert "getCount" == "get" + "Count";
    ChangedIffSetterExists(ms, 0);
  }

  /** The getter's own parameter list is not looked at: a "getter" with a parameter is repaired too. */
  lemma GetterWithParameterScenario()
    ensures var str, short := JType("String", false), JType("Short", false);
      FixClass([MethodSig("getSize", JType("short", true), [str]), MethodSig("setSize", Void, [short])])
      == [MethodSig("getSize", short, [str]), MethodSig("setSize", Void, [short])]
  {
    var str, short := JType("String", false), JType("Short", false);
    var ms := [MethodSig("getSize", JType("short", true), [str]), MethodSig("setSize", Void, [short])];
    PropertyNameOfPrefixed("Size");
    SetterNameIsNoGetterName("Size");
    assert "getSize" == "get" + "Size" && "setSize" == "set" + "Size";
    GetterNameIsNoSetter("getSize", "Size");
    FirstSetterWins(ms, 0, 1);
  }
}
