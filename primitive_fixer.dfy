/**
 * The value-level meaning of the primitive fixer pass: which methods are getters, the
 * primitive/wrapper table, the setter scan for one getter and the effect on one class,
 * with the properties the pass promises.
 */
module PrimitiveFixer {
  import opened Optional
  import opened CodeModel

  /** Java's String.startsWith. */
  predicate StartsWith(s: string, prefix: string)
  {
    |prefix| <= |s| && s[..|prefix|] == prefix
  }

  /** A name the pass treats as a getter name: it starts with "is" or "get". */
  predicate IsGetterName(name: string)
  {
    StartsWith(name, "is") || StartsWith(name, "get")
  }

  /** A getter candidate: primitive return type and a getter name. The parameter count is not looked at. */
  predicate IsCandidate(m: MethodSig): (b: bool)
    ensures b ==> 2 <= |m.name|
  {
    m.retType.isPrimitive && IsGetterName(m.name)
  }

  /** The eight primitive kinds and the name of the wrapper class each is boxed into. */
  const Boxed: map<string, string> := map[
    "byte" := "Byte", "short" := "Short", "char" := "Character", "int" := "Integer",
    "long" := "Long", "float" := "Float", "double" := "Double", "boolean" := "Boolean"]

  /** The table is one-to-one: each of the eight primitive kinds has its own wrapper. */
  lemma BoxedIsOneToOne()
    ensures forall p, q :: p in Boxed && q in Boxed && Boxed[p] == Boxed[q] ==> p == q
  {
  }

  /**
   * The wrapper type the setter takes if its single parameter is the boxed form of
   * returnType, and None otherwise (Java's null).
   */
  function IsMatching(returnType: JType, paramTypes: seq<JType>): (r: Option<JType>)
    ensures |paramTypes| != 1 ==> r == None
    ensures r.Some? <==>
      |paramTypes| == 1 && returnType.name in Boxed && Boxed[returnType.name] == paramTypes[0].name
    ensures r.Some? ==> r.value == paramTypes[0]
  {
    if |paramTypes| != 1 then None
    else
      var retType := returnType.name;
      var param := paramTypes[0].name;
      if (retType == "byte" && param == "Byte")
        || (retType == "short" && param == "Short")
        || (retType == "char" && param == "Character")
        || (retType == "int" && param == "Integer")
        || (retType == "long" && param == "Long")
        || (retType == "float" && param == "Float")
        || (retType == "double" && param == "Double")
        || (retType == "boolean" && param == "Boolean")
      then Some(paramTypes[0])
      else None
  }

  /** No wrapper name is itself a primitive name of the table. */
  lemma WrapperIsNotPrimitive(t: JType, paramTypes: seq<JType>)
    requires t.name in Boxed.Values
    ensures t.name !in Boxed
    ensures IsMatching(t, paramTypes) == None
  {
  }

  /** The property a getter stands for: its name without "get" (3 characters) or "is" (2). */
  function PropertyName(name: string): (r: string)
    requires IsGetterName(name)
    ensures StartsWith(name, "get") ==> name == "get" + r
    ensures !StartsWith(name, "get") ==> name == "is" + r
  {
    if StartsWith(name, "get") then name[3..] else name[2..]
  }

  /** Removing the prefix undoes adding it, for both getter prefixes. */
  lemma PropertyNameOfPrefixed(prop: string)
    ensures IsGetterName("get" + prop) && PropertyName("get" + prop) == prop
    ensures IsGetterName("is" + prop) && PropertyName("is" + prop) == prop
  {
    assert ("get" + prop)[..3] == "get";
    assert ("is" + prop)[..2] == "is";
    assert |"is" + prop| >= 3 ==> ("is" + prop)[..3][0] == 'i';
  }

  /** A setter name is never a getter name. */
  lemma SetterNameIsNoGetterName(prop: string)
    ensures !IsGetterName("set" + prop)
  {
    assert ("set" + prop)[..2][0] == 's';
    assert ("set" + prop)[..3][0] == 's';
  }

  /** m is a void setter of prop whose parameters match the getter's current return type. */
  predicate Qualifies(getter: MethodSig, prop: string, m: MethodSig): (b: bool)
    ensures b ==> !IsGetterName(m.name)
    ensures b ==> |m.params| == 1 && getter.retType.name in Boxed
    ensures b ==> m.params[0].name == Boxed[getter.retType.name]
  {
    SetterNameIsNoGetterName(prop);
    m.name == "set" + prop && m.retType.name == "void" && IsMatching(getter.retType, m.params).Some?
  }

  /** The repair: the getter takes the wrapper type, and a Boolean getter is named get<prop>. */
  function Rewrite(getter: MethodSig, prop: string, newType: JType): (r: MethodSig)
    ensures r.retType == newType && r.params == getter.params
    ensures r.name != getter.name ==> newType.name == "Boolean" && r.name == "get" + prop
  {
    getter.(name := if newType.name == "Boolean" then "get" + prop else getter.name,
            retType := newType)
  }

  /** One iteration of the setter scan: look at method m and repair the getter if m qualifies. */
  function Step(getter: MethodSig, prop: string, m: MethodSig): (r: MethodSig)
    ensures Qualifies(getter, prop, m) ==> r == Rewrite(getter, prop, m.params[0])
    ensures !Qualifies(getter, prop, m) ==> r == getter
    ensures r.params == getter.params
    ensures r != getter ==> getter.retType.name in Boxed && r.retType.name == Boxed[getter.retType.name]
    ensures r != getter ==> r.retType.name !in Boxed
  {
    if m.name == "set" + prop && m.retType.name == "void" then
      match IsMatching(getter.retType, m.params)
      case Some(newType) =>
        assert newType.name in Boxed.Values by {
          assert Boxed[getter.retType.name] == newType.name;
        }
        WrapperIsNotPrimitive(newType, m.params);
        Rewrite(getter, prop, newType)
      case None => getter
    else getter
  }

  /** The setter scan over ms, in order, starting from getter. */
  function ScanSetters(getter: MethodSig, prop: string, ms: seq<MethodSig>): (r: MethodSig)
    ensures r.params == getter.params
    ensures r.name == getter.name || r.name == "get" + prop
  {
    if ms == [] then getter
    else Step(ScanSetters(getter, prop, ms[..|ms| - 1]), prop, ms[|ms| - 1])
  }

  /** The position of the first method of ms that qualifies as a setter of prop for getter. */
  function FirstSetter(getter: MethodSig, prop: string, ms: seq<MethodSig>): (r: Option<nat>)
    ensures r.None? ==> forall j :: 0 <= j < |ms| ==> !Qualifies(getter, prop, ms[j])
    ensures r.Some? ==> r.value < |ms| && Qualifies(getter, prop, ms[r.value])
    ensures r.Some? ==> forall j :: 0 <= j < r.value ==> !Qualifies(getter, prop, ms[j])
  {
    if ms == [] then None
    else if Qualifies(getter, prop, ms[0]) then Some(0)
    else match FirstSetter(getter, prop, ms[1..])
      case None => None
      case Some(i) => Some(i + 1)
  }

  /** The getter after the whole scan over the methods of its class. */
  function FixGetter(getter: MethodSig, ms: seq<MethodSig>): (r: MethodSig)
    requires IsGetterName(getter.name)
    ensures r.params == getter.params
    ensures IsGetterName(r.name) && PropertyName(r.name) == PropertyName(getter.name)
    ensures r != getter ==>
      getter.retType.name in Boxed && r.retType.name == Boxed[getter.retType.name]
  {
    var prop := PropertyName(getter.name);
    PropertyNameOfPrefixed(prop);
    match FirstSetter(getter, prop, ms)
    case None =>
      ScanNoMatch(getter, prop, ms);
      ScanSetters(getter, prop, ms)
    case Some(i) =>
      ScanFirstMatch(getter, prop, ms, i);
      ScanSetters(getter, prop, ms)
  }

  /** The methods of a class after the pass: every candidate getter is scanned, nothing else changes. */
  function FixClass(ms: seq<MethodSig>): (r: seq<MethodSig>)
    ensures |r| == |ms|
    ensures forall p :: 0 <= p < |ms| ==> r[p].params == ms[p].params
    ensures forall p :: 0 <= p < |ms| && !IsCandidate(ms[p]) ==> r[p] == ms[p]
  {
    seq(|ms|, p requires 0 <= p < |ms| => if IsCandidate(ms[p]) then FixGetter(ms[p], ms) else ms[p])
  }

  /** When nothing in ms qualifies, the scan leaves the getter as it is. */
  lemma {:induction false} ScanNoMatch(getter: MethodSig, prop: string, ms: seq<MethodSig>)
    requires forall j :: 0 <= j < |ms| ==> !Qualifies(getter, prop, ms[j])
    ensures ScanSetters(getter, prop, ms) == getter
  {
    if ms != [] {
      ScanNoMatch(getter, prop, ms[..|ms| - 1]);
    }
  }

  /**
   * The first qualifying setter decides: once the getter holds the wrapper type,
   * no later setter matches it any more.
   */
  lemma {:induction false} ScanFirstMatch(getter: MethodSig, prop: string, ms: seq<MethodSig>, i: nat)
    requires i < |ms| && Qualifies(getter, prop, ms[i])
    requires forall j :: 0 <= j < i ==> !Qualifies(getter, prop, ms[j])
    ensures ScanSetters(getter, prop, ms) == Rewrite(getter, prop, ms[i].params[0])
  {
    var n := |ms|;
    var front := ms[..n - 1];
    if i == n - 1 {
      ScanNoMatch(getter, prop, front);
    } else {
      ScanFirstMatch(getter, prop, front, i);
      var fixed := Rewrite(getter, prop, ms[i].params[0]);
      assert fixed.retType.name in Boxed.Values by {
        assert Boxed[getter.retType.name] == fixed.retType.name;
      }
      WrapperIsNotPrimitive(fixed.retType, ms[n - 1].params);
    }
  }

  /** The scan of one getter, stated through the first qualifying setter. */
  lemma FixGetterByFirstSetter(getter: MethodSig, ms: seq<MethodSig>)
    requires IsGetterName(getter.name)
    ensures var prop := PropertyName(getter.name);
      FixGetter(getter, ms) ==
        match FirstSetter(getter, prop, ms)
        case None => getter
        case Some(i) => Rewrite(getter, prop, ms[i].params[0])
  {
    var prop := PropertyName(getter.name);
    match FirstSetter(getter, prop, ms)
    case None => ScanNoMatch(getter, prop, ms);
    case Some(i) => ScanFirstMatch(getter, prop, ms, i);
  }

  /**
   * Two method states that look alike to the setter scan: equal, or both named like
   * getters (a getter name never equals "set" + a property name).
   */
  predicate SetterEquivalent(a: MethodSig, b: MethodSig)
  {
    a == b || (IsGetterName(a.name) && IsGetterName(b.name))
  }

  /** A method named like a getter is never taken for a setter. */
  lemma GetterNameIsNoSetter(name: string, prop: string)
    requires IsGetterName(name)
    ensures name != "set" + prop
  {
    assert name[0] == 'i' || name[0] == 'g';
    assert ("set" + prop)[0] == 's';
  }

  /** The scan step treats setter-equivalent methods the same way. */
  lemma StepIgnoresGetters(getter: MethodSig, prop: string, a: MethodSig, b: MethodSig)
    requires SetterEquivalent(a, b)
    ensures Step(getter, prop, a) == Step(getter, prop, b)
    ensures Qualifies(getter, prop, a) <==> Qualifies(getter, prop, b)
  {
    if a != b {
      GetterNameIsNoSetter(a.name, prop);
      GetterNameIsNoSetter(b.name, prop);
    }
  }

  /**
   * A method leaves the pass changed exactly when it is a candidate getter and its
   * class holds a qualifying setter for its property.
   */
  lemma ChangedIffSetterExists(ms: seq<MethodSig>, p: nat)
    requires p < |ms|
    ensures FixClass(ms)[p] != ms[p] <==>
      IsCandidate(ms[p]) &&
      exists i :: 0 <= i < |ms| && Qualifies(ms[p], PropertyName(ms[p].name), ms[i])
  {
    if IsCandidate(ms[p]) {
      var getter := ms[p];
      var prop := PropertyName(getter.name);
      FixGetterByFirstSetter(getter, ms);
      match FirstSetter(getter, prop, ms)
      case None =>
      case Some(i) =>
        var fixed := Rewrite(getter, prop, ms[i].params[0]);
        assert Boxed[getter.retType.name] == fixed.retType.name;
        WrapperIsNotPrimitive(fixed.retType, []);
        assert fixed.retType != getter.retType;
    }
  }

  /** The first qualifying setter in method order gives the getter its new type and name. */
  lemma FirstSetterWins(ms: seq<MethodSig>, p: nat, i: nat)
    requires p < |ms| && IsCandidate(ms[p])
    requires i < |ms| && Qualifies(ms[p], PropertyName(ms[p].name), ms[i])
    requires forall j :: 0 <= j < i ==> !Qualifies(ms[p], PropertyName(ms[p].name), ms[j])
    ensures FixClass(ms)[p].retType == ms[i].params[0]
    ensures FixClass(ms)[p].params == ms[p].params
    ensures FixClass(ms)[p].name ==
      if ms[i].params[0].name == "Boolean" then "get" + PropertyName(ms[p].name) else ms[p].name
  {
    ScanFirstMatch(ms[p], PropertyName(ms[p].name), ms, i);
  }

  /**
   * Whichever qualifying setter a class holds, the getter ends up with the wrapper of
   * its primitive kind, and only a boolean getter is renamed, to get<Property>.
   */
  lemma AnySetterFixes(ms: seq<MethodSig>, p: nat, i: nat)
    requires p < |ms| && IsCandidate(ms[p])
    requires i < |ms| && Qualifies(ms[p], PropertyName(ms[p].name), ms[i])
    ensures ms[p].retType.name in Boxed
    ensures FixClass(ms)[p].retType.name == Boxed[ms[p].retType.name] == ms[i].params[0].name
    ensures FixClass(ms)[p].name ==
      if ms[p].retType.name == "boolean" then "get" + PropertyName(ms[p].name) else ms[p].name
  {
    var getter := ms[p];
    var prop := PropertyName(getter.name);
    BoxedIsOneToOne();
    match FirstSetter(getter, prop, ms)
    case Some(k) =>
      FirstSetterWins(ms, p, k);
  }

  /** A getter changes name only when it was a boolean is<Property> that becomes get<Property>. */
  lemma RenameOnlyForBoolean(ms: seq<MethodSig>, p: nat)
    requires p < |ms|
    ensures FixClass(ms)[p].name != ms[p].name ==>
      IsCandidate(ms[p]) && StartsWith(ms[p].name, "is") &&
      ms[p].retType.name == "boolean" && FixClass(ms)[p].retType.name == "Boolean" &&
      FixClass(ms)[p].name == "get" + PropertyName(ms[p].name)
  {
    if FixClass(ms)[p].name != ms[p].name {
      ChangedIffSetterExists(ms, p);
      var i :| 0 <= i < |ms| && Qualifies(ms[p], PropertyName(ms[p].name), ms[i]);
      AnySetterFixes(ms, p, i);
    }
  }

  /** After the pass every method still looks the same to the setter scan as before it. */
  lemma FixClassKeepsSetters(ms: seq<MethodSig>, i: nat)
    requires i < |ms|
    ensures SetterEquivalent(FixClass(ms)[i], ms[i])
  {
  }

  /** Running the pass on its own result changes nothing. */
  lemma FixClassIdempotent(ms: seq<MethodSig>)
    ensures FixClass(FixClass(ms)) == FixClass(ms)
  {
    var out := FixClass(ms);
    forall p | 0 <= p < |out|
      ensures FixClass(out)[p] == out[p]
    {
      if IsCandidate(out[p]) {
        var getter := out[p];
        var prop := PropertyName(ms[p].name);
        assert PropertyName(getter.name) == prop;
        ChangedIffSetterExists(ms, p);
        forall i | 0 <= i < |out|
          ensures !Qualifies(getter, prop, out[i])
        {
          FixClassKeepsSetters(ms, i);
          StepIgnoresGetters(getter, prop, out[i], ms[i]);
          if getter != ms[p] {
            var k :| 0 <= k < |ms| && Qualifies(ms[p], prop, ms[k]);
            AnySetterFixes(ms, p, k);
            assert getter.retType.name in Boxed.Values;
            WrapperIsNotPrimitive(getter.retType, out[i].params);
          }
        }
        ScanNoMatch(getter, prop, out);
      }
    }
  }
}
