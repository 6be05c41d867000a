/**
 The `where` argument of a query: a JavaScript object literal whose
 properties may be `undefined`. The paging helper treats an undefined
 property as no filter, so the model keeps only the defined ones.
 */
module Where {
  import opened JsValues
  import opened Strings

  /** A predicate value: a (pre-quoted) string or a number. */
  datatype Value = Text(s: string) | Number(n: int)

  /** The two characters backslash and double quote. */
  const Delim: string := "\\\""

  /** A string literal as the query language expects it: `\"s\"`. */
  function Quote(s: string): (r: string)
    ensures |r| == |s| + 4
    ensures r[..2] == ['\\', '"'] && r[|r| - 2..] == ['\\', '"']
    ensures r[2..|r| - 2] == s
  {
    Delim + s + Delim
  }

  /** Distinct filter arguments give distinct predicate literals. */
  lemma QuoteInjective(a: string, b: string)
    requires Quote(a) == Quote(b)
    ensures a == b
  {
    assert a == Quote(a)[2..|Quote(a)| - 2];
  }

  /** One property of the object literal; `None` is an `undefined` value. */
  datatype Entry = Entry(key: string, value: Option<Value>)

  /** `x ? \"x\" : undefined` for an optional string argument. */
  function QuotedIfTruthy(x: Option<string>): (r: Option<Value>)
    ensures r.Some? <==> x.Some? && x.value != ""
    ensures r.Some? ==> r.value == Text(Quote(x.value))
  {
    if TextTruthy(x) then Some(Text(Quote(x.value))) else None
  }

  /** `x || undefined` for an optional numeric argument. */
  function NumberIfTruthy(x: Option<int>): (r: Option<Value>)
    ensures r.Some? <==> x.Some? && x.value != 0
    ensures r.Some? ==> r.value == Number(x.value)
  {
    if NumberTruthy(x) then Some(Number(x.value)) else None
  }

  /** A property that is always set. */
  function Always(v: Value): Option<Value> {
    Some(v)
  }

  function KeySet(es: seq<Entry>): set<string> {
    set i | 0 <= i < |es| :: es[i].key
  }

  /**
   The defined properties of the literal, written left to right: a later
   property replaces an earlier one of the same key, and an `undefined` one
   removes it.
   */
  function Defined(es: seq<Entry>): (m: map<string, Value>)
    ensures m.Keys <= KeySet(es)
    decreases |es|
  {
    if es == [] then map[]
    else
      var init := es[..|es| - 1];
      var last := es[|es| - 1];
      var m := Defined(init);
      assert KeySet(init) <= KeySet(es) by {
        forall k | k in KeySet(init) ensures k in KeySet(es) {
          var i :| 0 <= i < |init| && init[i].key == k;
          assert es[i].key == k;
        }
      }
      assert last.key in KeySet(es);
      match last.value
      case None => m - {last.key}
      case Some(v) => m[last.key := v]
  }

  predicate DistinctKeys(es: seq<Entry>) {
    forall i, j | 0 <= i < j < |es| :: es[i].key != es[j].key
  }

  /**
   With distinct keys, a property is in the result exactly when its value is
   defined, and then with that value.
   */
  lemma {:induction false} DefinedLookup(es: seq<Entry>, i: nat)
    requires DistinctKeys(es)
    requires i < |es|
    ensures es[i].key in Defined(es) <==> es[i].value.Some?
    ensures es[i].value.Some? ==> Defined(es)[es[i].key] == es[i].value.value
    decreases |es|
  {
    var init := es[..|es| - 1];
    if i < |es| - 1 {
      assert DistinctKeys(init);
      DefinedLookup(init, i);
      assert init[i] == es[i];
      assert es[i].key != es[|es| - 1].key;
    }
  }

  /**
   Replacing one property by another of the same key leaves every other key
   of the result as it was.
   */
  lemma {:induction false} DefinedOtherKeys(es: seq<Entry>, i: nat, e: Entry, k: string)
    requires i < |es|
    requires e.key == es[i].key
    requires k != e.key
    ensures k in Defined(es) <==> k in Defined(es[i := e])
    ensures k in Defined(es) ==> Defined(es)[k] == Defined(es[i := e])[k]
    decreases |es|
  {
    var es' := es[i := e];
    if i < |es| - 1 {
      assert es'[..|es'| - 1] == es[..|es| - 1][i := e];
      DefinedOtherKeys(es[..|es| - 1], i, e, k);
    } else {
      assert es'[..|es'| - 1] == es[..|es| - 1];
    }
  }

  /** `'[' + codes.map(c => \"c\").join(',') + ']'`. */
  function QuotedList(codes: seq<string>): (r: string)
    ensures |r| >= 2 && r[0] == '[' && r[|r| - 1] == ']'
    ensures codes == [] ==> r == "[]"
    ensures |codes| == 1 ==> r == "[" + Quote(codes[0]) + "]"
  {
    "[" + Join(seq(|codes|, i requires 0 <= i < |codes| => Quote(codes[i])), ',') + "]"
  }
}
