/**
 * The slice of the generator's class model that the primitive fixer reads and writes:
 * a type reference, a method (an object the pass updates in place) and the value
 * snapshot of a method that the specification functions work on.
 */
module CodeModel {

  /** A type reference: its name ("int", "Integer", "void", ...) and whether it is a primitive kind. */
  datatype JType = JType(name: string, isPrimitive: bool)

  /** The observable state of a method: its name, declared return type and parameter types in order. */
  datatype MethodSig = MethodSig(name: string, retType: JType, params: seq<JType>)

  /** A method of a generated class; the fixer changes its name and return type in place. */
  class JMethod {
    var name: string
    var retType: JType
    var params: seq<JType>

    /** The current state of this method as a value. */
    function Sig(): MethodSig
      reads this
    {
      MethodSig(name, retType, params)
    }
  }

  /** The current states of a sequence of methods, position by position. */
  function Sigs(ms: seq<JMethod>): (r: seq<MethodSig>)
    reads set m | m in ms
    ensures |r| == |ms|
    ensures forall i :: 0 <= i < |ms| ==> r[i] == ms[i].Sig()
  {
    if ms == [] then [] else Sigs(ms[..|ms| - 1]) + [ms[|ms| - 1].Sig()]
  }

  /** No method object occurs twice in a class. */
  ghost predicate Distinct(ms: seq<JMethod>)
  {
    forall i, j :: 0 <= i < j < |ms| ==> ms[i] != ms[j]
  }
}
