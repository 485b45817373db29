/**
 * The plugin's run hook: it walks every generated class and repairs, in place, the
 * primitive getters whose void setter takes the wrapper type.
 */
module PrimitiveFixerPlugin {
  import opened CodeModel
  import opened PrimitiveFixer

  /** Every method object belongs to exactly one class of the outline and occurs there once. */
  ghost predicate WellFormedOutline(outline: seq<seq<JMethod>>)
  {
    (forall c :: 0 <= c < |outline| ==> Distinct(outline[c])) &&
    (forall c, d, m :: 0 <= c < d < |outline| && m in outline[c] ==> m !in outline[d])
  }

  /**
   * The setter scan for one getter: every method of the class is looked at in order;
   * a void "set" + property method whose parameters match the getter's current type
   * gives the getter that type, and a Boolean one also renames it to get<Property>.
   * The methods of the class may already have been through the scan of other getters:
   * orig is what they were before the pass, and they still look the same to the scan.
   */
  method CorrectGetter(getter: JMethod, methods: seq<JMethod>, ghost orig: seq<MethodSig>)
    requires |orig| == |methods|
    requires IsCandidate(getter.Sig())
    requires forall t :: 0 <= t < |methods| ==> SetterEquivalent(methods[t].Sig(), orig[t])
    modifies getter
    ensures getter.Sig() == FixGetter(old(getter.Sig()), orig)
  {
    var varName := getter.name[2..];
    if StartsWith(getter.name, "get") {
      varName := getter.name[3..];
    }
    ghost var start := getter.Sig();
    PropertyNameOfPrefixed(varName);
    for t := 0 to |methods|
      invariant getter.Sig() == ScanSetters(start, varName, orig[..t])
      invariant IsGetterName(getter.name)
      invariant forall u :: 0 <= u < |methods| ==> SetterEquivalent(methods[u].Sig(), orig[u])
    {
      label Iter:
      var m := methods[t];
      ghost var before := getter.Sig();
      ghost var seen := m.Sig();
      StepIgnoresGetters(before, varName, seen, orig[t]);
      if m.name == "set" + varName && m.retType.name == "void" {
        var newType := IsMatching(getter.retType, m.params);
        if newType.Some? {
          if newType.value.name == "Boolean" {
            getter.name := "get" + varName;
          }
          getter.retType := newType.value;
        }
      }
      assert getter.Sig() == Step(before, varName, seen);
      forall u | 0 <= u < |methods|
        ensures SetterEquivalent(methods[u].Sig(), orig[u])
      {
        if methods[u] != getter {
          assert methods[u].Sig() == old@Iter(methods[u].Sig());
        }
      }
      assert orig[..t + 1][..t] == orig[..t];
    }
    assert orig[..|methods|] == orig;
  }

  /**
   * The getter candidates of a class: each method with a primitive return type and a
   * name starting with "is" or "get", each of them once.
   */
  method CollectGetters(methods: seq<JMethod>) returns (getters: seq<JMethod>)
    requires Distinct(methods)
    ensures forall t :: 0 <= t < |methods| ==> (methods[t] in getters <==> IsCandidate(methods[t].Sig()))
    ensures forall g :: g in getters ==> g in methods
    ensures forall a, b :: 0 <= a < b < |getters| ==> getters[a] != getters[b]
  {
    getters := [];
    for j := 0 to |methods|
      invariant forall g :: g in getters ==> g in methods[..j] && IsCandidate(g.Sig())
      invariant forall t :: 0 <= t < j && IsCandidate(methods[t].Sig()) ==> methods[t] in getters
      invariant forall a, b :: 0 <= a < b < |getters| ==> getters[a] != getters[b]
    {
      var m := methods[j];
      if m.retType.isPrimitive && (StartsWith(m.name, "is") || StartsWith(m.name, "get")) {
        assert forall t :: 0 <= t < j ==> methods[..j][t] != m;
        assert m !in getters;
        getters := getters + [m];
      }
    }
    assert methods[..|methods|] == methods;
  }

  /** One class: collect the candidate getters, then run the setter scan for each of them. */
  method CorrectClass(methods: seq<JMethod>)
    requires Distinct(methods)
    modifies set m | m in methods
    ensures Sigs(methods) == FixClass(old(Sigs(methods)))
  {
    ghost var orig := Sigs(methods);
    var getters := CollectGetters(methods);
    assert forall t :: 0 <= t < |methods| ==> (methods[t] in getters <==> IsCandidate(orig[t]));
    ghost var target := FixClass(orig);
    ghost var done: set<JMethod> := {};
    for k := 0 to |getters|
      invariant forall a :: 0 <= a < |getters| ==> (getters[a] in done <==> a < k)
      invariant forall t :: 0 <= t < |methods| ==>
        methods[t].Sig() == if methods[t] in done then target[t] else orig[t]
    {
      label Iter:
      var getter := getters[k];
      assert getter in methods && getter !in done;
      ghost var p :| 0 <= p < |methods| && methods[p] == getter;
      assert getter.Sig() == orig[p] && IsCandidate(orig[p]);
      forall t | 0 <= t < |methods|
        ensures SetterEquivalent(methods[t].Sig(), orig[t])
      {
        FixClassKeepsSetters(orig, t);
      }
      CorrectGetter(getter, methods, orig);
      assert getter.Sig() == target[p];
      done := done + {getter};
      forall a | 0 <= a < |getters|
        ensures getters[a] in done <==> a < k + 1
      {
        if a != k {
          assert getters[a] != getter;
        }
      }
      forall t | 0 <= t < |methods|
        ensures methods[t].Sig() == if methods[t] in done then target[t] else orig[t]
      {
        if t != p {
          assert methods[t] != getter;
          assert methods[t].Sig() == old@Iter(methods[t].Sig());
        }
      }
    }
    forall t | 0 <= t < |methods| && IsCandidate(orig[t])
      ensures methods[t] in done
    {
      var a :| 0 <= a < |getters| && getters[a] == methods[t];
    }
  }

  /** The run hook: every class of the outline is corrected; the result is always true. */
  method Run(outline: seq<seq<JMethod>>) returns (ok: bool)
    requires WellFormedOutline(outline)
    modifies set c, m | c in outline && m in c :: m
    ensures ok
    ensures forall c :: 0 <= c < |outline| ==> Sigs(outline[c]) == FixClass(old(Sigs(outline[c])))
  {
    for i := 0 to |outline|
      invariant forall c :: 0 <= c < i ==> Sigs(outline[c]) == FixClass(old(Sigs(outline[c])))
      invariant forall c :: i <= c < |outline| ==> Sigs(outline[c]) == old(Sigs(outline[c]))
    {
      label Before:
      CorrectClass(outline[i]);
      forall c | 0 <= c < |outline| && c != i
        ensures Sigs(outline[c]) == old@Before(Sigs(outline[c]))
      {
        forall t | 0 <= t < |outline[c]|
          ensures outline[c][t].Sig() == old@Before(outline[c][t].Sig())
        {
          assert outline[c][t] in outline[c];
          assert outline[c][t] !in outline[i];
        }
      }
    }
    ok := true;
  }

  /** Running the hook a second time on its own result changes nothing. */
  method RunTwice(outline: seq<seq<JMethod>>)
    requires WellFormedOutline(outline)
    modifies set c, m | c in outline && m in c :: m
    ensures forall c :: 0 <= c < |outline| ==> Sigs(outline[c]) == FixClass(old(Sigs(outline[c])))
  {
    var first := Run(outline);
    label Once:
    var second := Run(outline);
    forall c | 0 <= c < |outline|
      ensures Sigs(outline[c]) == old@Once(Sigs(outline[c]))
    {
      FixClassIdempotent(old(Sigs(outline[c])));
    }
  }
}
