# Primitive fixer for generated getter/setter pairs

This project models the XJC plugin `PrimitiveFixerPlugin` (option `-Xfix-primitives`).
The plugin post-processes the class model that the XML binding compiler generates.
For every generated class it looks for getters whose return type is primitive and whose
name starts with `is` or `get`. It pairs each with a `void set<Property>` method whose only
parameter is the wrapper of that primitive. It then changes the getter's return type to the
wrapper type. A `Boolean` getter is also renamed to `get<Property>`.

Files:

- `optional.dfy`: `Option`, which stands for a Java reference that may be `null`.
- `code_model.dfy`: the slice of the code model that the plugin touches. `JType` is a type
  reference (name and primitive flag). `JMethod` is a method object whose name and return type
  the plugin updates in place. `MethodSig` is the value a method holds at one moment.
- `primitive_fixer.dfy`: the pure side.
  - `IsMatching` with the eight-entry primitive/wrapper table `Boxed`.
  - The property-name derivation.
  - `ScanSetters`, the setter scan for one getter, written as a fold over the class's methods
    that does exactly what one inner-loop iteration does.
  - `FixClass`, the effect of the pass on one class, and the properties proved about it.
- `fixer_plugin.dfy`: the imperative side. `Run` loops over the classes. `CorrectClass` first
  collects the candidate getters (`CollectGetters`) and then scans for each one. `CorrectGetter` is the inner loop
  over the methods, and it updates the getter object in place. `CorrectGetter`, `CorrectClass` and `Run`
  are proved against `FixGetter`/`FixClass`, and `CollectGetters` against `IsCandidate`. `run`'s loops are split into these four methods, and each loop body
  is the source's body.
- `scenarios.dfy`: concrete classes (`int getAge`/`setAge(Integer)`, `boolean isActive`/
  `setActive(Boolean)`, `long getId`/`setId(long)`, a non-void setter, and a getter that takes a
  parameter).

Two facts about the code that the model keeps:
- When several `void set<P>` methods qualify, the first in method order wins. After the first
  rewrite the getter's type name is a wrapper name, which `isMatching` rejects
  (`ScanFirstMatch`, `FirstSetterWins`).
- A getter's own parameter list is not checked. Only the `is`/`get` prefix and the primitive
  return type are (`GetterWithParameterScenario`).

## Model

| member | source | states |
|---|---|---|
| PrimitiveFixer.IsMatching | src/main/java/de/sweber/jaxb2/primitivefixer/PrimitiveFixerPlugin.java:115-134 | None whenever there is not exactly one parameter; a result exactly when (return-type name, parameter-type name) is one of the eight primitive/wrapper pairs of the table; the result is then the sole parameter type |
| PrimitiveFixer.WrapperIsNotPrimitive | src/main/java/de/sweber/jaxb2/primitivefixer/PrimitiveFixerPlugin.java:122-129 | a type whose name is a wrapper name is no primitive name of the table, so isMatching rejects it against any parameter list |
| PrimitiveFixer.IsCandidate | src/main/java/de/sweber/jaxb2/primitivefixer/PrimitiveFixerPlugin.java:69 | a candidate getter's name has at least two characters, so removing the `is` or `get` prefix at lines 78-82 is always defined (a name starting with `get` has at least three) |
| PrimitiveFixer.BoxedIsOneToOne | src/main/java/de/sweber/jaxb2/primitivefixer/PrimitiveFixerPlugin.java:122-129 | no two primitive kinds of the table share a wrapper name, so the wrapper name `Boolean` comes only from `boolean` |
| PrimitiveFixer.PropertyName | src/main/java/de/sweber/jaxb2/primitivefixer/PrimitiveFixerPlugin.java:78-82 | the property is the getter name with the prefix removed: `get` + property when the name starts with `get`, otherwise `is` + property |
| PrimitiveFixer.PropertyNameOfPrefixed | src/main/java/de/sweber/jaxb2/primitivefixer/PrimitiveFixerPlugin.java:78-82 | `get<P>` and `is<P>` are getter names and both yield property P, so a renamed getter still stands for the same property |
| PrimitiveFixer.SetterNameIsNoGetterName | src/main/java/de/sweber/jaxb2/primitivefixer/PrimitiveFixerPlugin.java:69 | a name `set<P>` never starts with `is` or `get`, so a setter is never a getter candidate |
| PrimitiveFixer.GetterNameIsNoSetter | src/main/java/de/sweber/jaxb2/primitivefixer/PrimitiveFixerPlugin.java:89 | a name starting with `is` or `get` never equals `set` + a property, so a getter (before or after its rename) is never taken for a setter |
| PrimitiveFixer.Qualifies | src/main/java/de/sweber/jaxb2/primitivefixer/PrimitiveFixerPlugin.java:89-91 | a method that passes the name, `void` and isMatching tests is not named like a getter, takes exactly one parameter, and that parameter's type name is the wrapper of the getter's primitive kind |
| PrimitiveFixer.Rewrite | src/main/java/de/sweber/jaxb2/primitivefixer/PrimitiveFixerPlugin.java:95-99 | the repaired getter has exactly the new type and keeps its parameters; its name changes only when the new type is named `Boolean`, and then to `get<P>` |
| PrimitiveFixer.Step | src/main/java/de/sweber/jaxb2/primitivefixer/PrimitiveFixerPlugin.java:89-99 | one inner-loop iteration keeps the getter's parameters; when it changes the getter, the getter's primitive return type is replaced by its own wrapper from the boxing table, and that wrapper name is not a primitive name, so no later setter can match the getter again |
| PrimitiveFixer.StepIgnoresGetters | src/main/java/de/sweber/jaxb2/primitivefixer/PrimitiveFixerPlugin.java:83-100 | one scan iteration gives the same result for two methods that are equal or both named like getters, so getters already rewritten do not change other getters' scans |
| PrimitiveFixer.ScanSetters | src/main/java/de/sweber/jaxb2/primitivefixer/PrimitiveFixerPlugin.java:83-101 | the scan never touches the getter's parameters, and the getter's name afterwards is its old name or `get` + property |
| PrimitiveFixer.FirstSetter | src/main/java/de/sweber/jaxb2/primitivefixer/PrimitiveFixerPlugin.java:83-91 | the position of the first method that is `set<P>`, returns `void` and matches the getter's type, with no earlier one qualifying; None exactly when no method qualifies |
| PrimitiveFixer.ScanNoMatch | src/main/java/de/sweber/jaxb2/primitivefixer/PrimitiveFixerPlugin.java:83-101 | with no qualifying setter, the getter leaves the scan unchanged in name and type |
| PrimitiveFixer.ScanFirstMatch | src/main/java/de/sweber/jaxb2/primitivefixer/PrimitiveFixerPlugin.java:88-99 | the first qualifying setter decides: the scan's result is the getter rewritten with that setter's parameter type, and later setters change nothing |
| PrimitiveFixer.FixGetter | src/main/java/de/sweber/jaxb2/primitivefixer/PrimitiveFixerPlugin.java:76-101 | the processed getter keeps its parameters, is still named like a getter of the same property, and when it changed, its new type name is the wrapper of its old primitive kind |
| PrimitiveFixer.FixGetterByFirstSetter | src/main/java/de/sweber/jaxb2/primitivefixer/PrimitiveFixerPlugin.java:76-101 | a getter after the pass is itself if no setter qualifies, and otherwise it is rewritten with the first qualifying setter's parameter type |
| PrimitiveFixer.FixClass | src/main/java/de/sweber/jaxb2/primitivefixer/PrimitiveFixerPlugin.java:64-103 | the pass keeps the number of methods and every parameter list, and it leaves every method that is not a primitive `is`/`get` candidate unchanged |
| PrimitiveFixer.ChangedIffSetterExists | src/main/java/de/sweber/jaxb2/primitivefixer/PrimitiveFixerPlugin.java:67-101 | a method is changed by the pass if and only if it is a primitive `is`/`get` candidate and its class holds a `void set<P>` method whose parameters match its type |
| PrimitiveFixer.FirstSetterWins | src/main/java/de/sweber/jaxb2/primitivefixer/PrimitiveFixerPlugin.java:88-99 | with the first qualifying setter at position i, the getter's return type becomes exactly that setter's parameter type, its parameters are kept, and it is renamed `get<P>` only when that type is named `Boolean` |
| PrimitiveFixer.AnySetterFixes | src/main/java/de/sweber/jaxb2/primitivefixer/PrimitiveFixerPlugin.java:89-99 | for any qualifying setter, the getter's new type name is the wrapper of its primitive kind and equals that setter's parameter type name; its name becomes `get<P>` exactly when the primitive is `boolean` |
| PrimitiveFixer.RenameOnlyForBoolean | src/main/java/de/sweber/jaxb2/primitivefixer/PrimitiveFixerPlugin.java:95-98 | a method's name changes only when it was a boolean `is<P>` getter that now returns `Boolean` and is named `get<P>` |
| PrimitiveFixer.FixClassKeepsSetters | src/main/java/de/sweber/jaxb2/primitivefixer/PrimitiveFixerPlugin.java:67-101 | after the pass every method is either unchanged or still named like a getter, as it was before |
| PrimitiveFixer.FixClassIdempotent | src/main/java/de/sweber/jaxb2/primitivefixer/PrimitiveFixerPlugin.java:59-105 | running the pass on its own result changes nothing |
| PrimitiveFixerPlugin.CollectGetters | src/main/java/de/sweber/jaxb2/primitivefixer/PrimitiveFixerPlugin.java:64-73 | collects exactly the methods with a primitive return type and an `is`/`get` name, each of them once, and nothing else |
| PrimitiveFixerPlugin.CorrectGetter | src/main/java/de/sweber/jaxb2/primitivefixer/PrimitiveFixerPlugin.java:78-101 | the in-place inner loop leaves the getter object in the state FixGetter gives for the class as it was before the pass, even when other getters of the class were already rewritten |
| PrimitiveFixerPlugin.CorrectClass | src/main/java/de/sweber/jaxb2/primitivefixer/PrimitiveFixerPlugin.java:64-103 | collecting the candidates and scanning for each of them leaves the class's methods in the state FixClass gives for their state before the pass |
| PrimitiveFixerPlugin.Run | src/main/java/de/sweber/jaxb2/primitivefixer/PrimitiveFixerPlugin.java:56-106 | returns true, and every class of the outline ends in the state FixClass gives for its state before the run |
| PrimitiveFixerPlugin.RunTwice | src/main/java/de/sweber/jaxb2/primitivefixer/PrimitiveFixerPlugin.java:59-105 | running the hook twice leaves every class as a single run does |
| FixerScenarios.AgeScenario | src/main/java/de/sweber/jaxb2/primitivefixer/PrimitiveFixerPlugin.java:89-99 | `int getAge()` with `void setAge(Integer)` becomes `Integer getAge()` and keeps its name |
| FixerScenarios.ActiveScenario | src/main/java/de/sweber/jaxb2/primitivefixer/PrimitiveFixerPlugin.java:95-99 | `boolean isActive()` with `void setActive(Boolean)` becomes `Boolean getActive()` |
| FixerScenarios.IdScenario | src/main/java/de/sweber/jaxb2/primitivefixer/PrimitiveFixerPlugin.java:126 | `long getId()` with `void setId(long)` is left unchanged, because the setter takes the primitive |
| FixerScenarios.FluentSetterScenario | src/main/java/de/sweber/jaxb2/primitivefixer/PrimitiveFixerPlugin.java:90 | a `set<P>` method that does not return `void` is not a setter, so the getter is unchanged |
| FixerScenarios.GetterWithParameterScenario | src/main/java/de/sweber/jaxb2/primitivefixer/PrimitiveFixerPlugin.java:69 | the getter's own parameters are not checked: `short getSize(String)` with `void setSize(Short)` becomes `Short getSize(String)` |

## Left out

- `getOptionName` and `getUsage` (PrimitiveFixerPlugin.java:41-54) are not modelled. They return constant strings for the host's command line and hold no logic.
- The `Options` and `ErrorHandler` arguments of `run` are not modelled, and neither is `SAXException`. The code never uses them or raises the exception.
- The host's `Outline`, `ClassOutline` and codemodel `JMethod`/`JType` are replaced. An outline is a sequence of classes, a class is the sequence of its `JMethod` objects, and a type is a (name, primitive flag) value. Type objects are compared as values, not by identity.
- `retType == "byte"` and the other primitive-name tests compare references in Java. They rely on codemodel interning primitive type names. The model compares the strings for equality.
- The `HashMap` of getters and its key order are not modelled. The getters are processed in method order. `CorrectGetter` holds whatever other getters of the class were already rewritten, because a getter is never taken for a setter (`StepIgnoresGetters`). So the result, `FixClass`, does not depend on the order.
- Run: requires that every method object belongs to exactly one class and occurs there once. The host builds the model that way. A method object shared between classes, which Java would scan once per class, is not modelled.
