/**
 The label count as `getLabelSummary` computes it, into a plain object
 literal `{}`, which inherits the members of `Object.prototype`. Entries are
 kept in insertion order; the array-index-first order of `Object.entries`
 is not modelled. A
 label naming an inherited member reads that member instead of `undefined`.
 `"__proto__"` reads the prototype object, so `+ 1` yields a string, and
 assigning a string through the `__proto__` setter does nothing: the label
 is never counted. Every other inherited name reads a function, so the
 count becomes a string that grows by one character `1` per occurrence.
 `Labels.Summary` is the count the component evidently intends, and the one
 the rest of the model uses; `ObjectSummaryAgrees` shows the two coincide
 whenever no label names an inherited member.
 */
module Tally {
  import opened Labels

  /** The accessor `Object.prototype.__proto__`. */
  const ProtoKey: string := "__proto__"

  /** The names an object literal inherits from `Object.prototype`. */
  const InheritedKeys: set<string> := {
    "__proto__", "__defineGetter__", "__defineSetter__", "__lookupGetter__",
    "__lookupSetter__", "constructor", "hasOwnProperty", "isPrototypeOf",
    "propertyIsEnumerable", "toLocaleString", "toString", "valueOf"
  }

  /** A value stored under a label: a number, or the string that `+ 1`
      makes of a function. */
  datatype Value = Num(n: nat) | Text(t: string)

  /** One own property of the accumulator, in insertion order. */
  datatype Prop = Prop(name: string, value: Value)

  /** The text of an inherited method as V8 writes a native function;
      `constructor` is the function `Object`. */
  function NativeText(l: string): string
  {
    "function " + (if l == "constructor" then "Object" else l) + "() { [native code] }"
  }

  /** `v + 1` for a truthy value: a number adds, a string appends "1". */
  function Plus1(v: Value): Value
  {
    match v
    case Num(n) => Num(n + 1)
    case Text(t) => Text(t + "1")
  }

  /** One step of the `reduce` on a plain object,
      `acc[l] = (acc[l] || 0) + 1`: an own property is incremented, an
      inherited method is read and turned into a string, and `__proto__` is
      left as it was. */
  function ObjectBump(ps: seq<Prop>, l: string): seq<Prop>
  {
    if l == ProtoKey then ps
    else if ps == [] then
      if l in InheritedKeys then [Prop(l, Text(NativeText(l) + "1"))] else [Prop(l, Num(1))]
    else if ps[0].name == l then [Prop(l, Plus1(ps[0].value))] + ps[1..]
    else [ps[0]] + ObjectBump(ps[1..], l)
  }

  /** `Object.entries` of the `reduce` as written, left to right. */
  function ObjectSummary(ls: seq<string>): seq<Prop>
  {
    if ls == [] then [] else ObjectBump(ObjectSummary(ls[..|ls| - 1]), ls[|ls| - 1])
  }

  /** The intended entries, seen as object properties holding numbers. */
  function Lift(es: seq<Entry>): (ps: seq<Prop>)
    ensures |ps| == |es|
  {
    if es == [] then [] else [Prop(es[0].name, Num(es[0].count))] + Lift(es[1..])
  }

  /** `ls` with every occurrence of `k` removed. */
  function Without(ls: seq<string>, k: string): (r: seq<string>)
    ensures k !in r
    ensures forall l :: l != k ==> (l in r <==> l in ls)
  {
    if ls == [] then []
    else Without(ls[..|ls| - 1], k) + (if ls[|ls| - 1] == k then [] else [ls[|ls| - 1]])
  }

  /** Off the inherited names, one step as written is one intended step. */
  lemma {:induction false} LiftBump(es: seq<Entry>, l: string)
    requires l !in InheritedKeys
    ensures ObjectBump(Lift(es), l) == Lift(Bump(es, l))
  {
    assert l != ProtoKey;
    if es == [] {
      assert Lift([Entry(l, 1)]) == [Prop(l, Num(1))] + Lift([]);
    } else if es[0].name == l {
      var r := [Entry(l, es[0].count + 1)] + es[1..];
      assert r[1..] == es[1..];
      assert Lift(es)[1..] == Lift(es[1..]);
    } else {
      LiftBump(es[1..], l);
      var r := [es[0]] + Bump(es[1..], l);
      assert r[1..] == Bump(es[1..], l);
      assert Lift(es)[1..] == Lift(es[1..]);
    }
  }

  /** When no label names an inherited member, the summary as written is
      the intended summary: the same labels with the same numeric counts,
      both in first-occurrence order. */
  lemma {:induction false} ObjectSummaryAgrees(ls: seq<string>)
    requires forall i :: 0 <= i < |ls| ==> ls[i] !in InheritedKeys
    ensures ObjectSummary(ls) == Lift(Summary(ls))
  {
    if ls != [] {
      var init := ls[..|ls| - 1];
      assert forall i :: 0 <= i < |init| ==> init[i] == ls[i];
      ObjectSummaryAgrees(init);
      LiftBump(Summary(init), ls[|ls| - 1]);
    }
  }

  /** As written, a `"__proto__"` label is never counted: the summary is
      the one of the labels with it removed. */
  lemma {:induction false} ProtoIgnored(ls: seq<string>)
    ensures ObjectSummary(ls) == ObjectSummary(Without(ls, ProtoKey))
  {
    if ls != [] {
      var init, last := ls[..|ls| - 1], ls[|ls| - 1];
      ProtoIgnored(init);
      var w := Without(init, ProtoKey);
      if last != ProtoKey {
        assert (w + [last])[..|w + [last]| - 1] == w;
      } else {
        assert w + [] == w;
      }
    }
  }

  /** One shape labelled "__proto__": the source's summary is empty and its
      counts sum to 0, where the intended summary counts the label once. */
  lemma ProtoLabelLost(ls: seq<string>)
    requires ls == [ProtoKey]
    ensures ObjectSummary(ls) == []
    ensures Summary(ls) == [Entry(ProtoKey, 1)] && Total(Summary(ls)) == |ls|
  {
    assert ls[..0] == [] && ls[0] == ProtoKey;
    assert ObjectSummary(ls) == ObjectBump([], ProtoKey);
    assert Summary(ls) == Bump([], ProtoKey);
  }

  /** The text `+ 1` makes of the inherited `constructor`. */
  lemma ObjectText()
    ensures NativeText("constructor") + "1" == "function Object() { [native code] }1"
  {
  }

  /** One shape labelled "constructor": the source's count is the string
      "function Object() { [native code] }1", not the number 1. */
  lemma ConstructorLabelGarbled(ls: seq<string>)
    requires ls == ["constructor"]
    ensures ObjectSummary(ls) == [Prop("constructor", Text("function Object() { [native code] }1"))]
    ensures Summary(ls) == [Entry("constructor", 1)]
  {
    var l := ls[0];
    assert ls[..0] == [];
    assert l != ProtoKey && l in InheritedKeys;
    assert ObjectSummary(ls) == ObjectBump([], l);
    assert Summary(ls) == Bump([], l);
    ObjectText();
  }
}
