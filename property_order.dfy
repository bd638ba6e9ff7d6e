/** The order in which `Object.keys` and `Object.values` list the own
    properties of a plain object (the OrdinaryOwnPropertyKeys operation,
    section 10.1.11.1 of the ECMAScript language specification): first the
    keys that are array indices, in ascending numeric order, then every other
    key in the order it was created. A property is a key with its value. */
module PropertyOrder {
  import opened Strings

  const MAX_ARRAY_INDEX: nat := 0xFFFF_FFFE

  /** An array index: the canonical decimal numeral (no sign, no leading
      zero) of an integer from 0 to 2^32 - 2. */
  predicate IsArrayIndex(k: string) {
    |k| >= 1 && AllDigits(k) && (k[0] == '0' ==> |k| == 1) && DigitsValue(k) <= MAX_ARRAY_INDEX
  }

  predicate AllIndices<V>(es: seq<(string, V)>) {
    forall i :: 0 <= i < |es| ==> IsArrayIndex(es[i].0)
  }

  predicate NoIndices<V>(es: seq<(string, V)>) {
    forall i :: 0 <= i < |es| ==> !IsArrayIndex(es[i].0)
  }

  /** Array-index keys only, in ascending numeric order. */
  predicate Ascending<V>(es: seq<(string, V)>) {
    AllIndices(es) &&
    forall i, j :: 0 <= i < j < |es| ==> DigitsValue(es[i].0) <= DigitsValue(es[j].0)
  }

  /** A key no larger than the first of sorted ones goes in front. */
  lemma AscendingPrepend<V>(e: (string, V), es: seq<(string, V)>)
    requires IsArrayIndex(e.0) && Ascending(es)
    requires es == [] || DigitsValue(e.0) <= DigitsValue(es[0].0)
    ensures Ascending([e] + es)
  {
    var r := [e] + es;
    forall i, j | 0 <= i < j < |r| ensures DigitsValue(r[i].0) <= DigitsValue(r[j].0) {
      if i == 0 && j > 1 {
        assert r[j] == es[j - 1];
      }
    }
  }

  /** Puts one array-index property in front of the first one with a
      larger key. */
  function Insert<V>(e: (string, V), es: seq<(string, V)>): (r: seq<(string, V)>)
    requires IsArrayIndex(e.0) && AllIndices(es)
    ensures |r| == |es| + 1 && AllIndices(r)
    ensures multiset(r) == multiset(es) + multiset{e}
    ensures r[0] == e || (es != [] && r[0] == es[0])
  {
    if es == [] || DigitsValue(e.0) <= DigitsValue(es[0].0) then
      [e] + es
    else
      assert es == [es[0]] + es[1..];
      [es[0]] + Insert(e, es[1..])
  }

  /** Insertion keeps sorted properties sorted. */
  lemma {:induction false} InsertAscending<V>(e: (string, V), es: seq<(string, V)>)
    requires IsArrayIndex(e.0) && Ascending(es)
    ensures Ascending(Insert(e, es))
  {
    if es == [] || DigitsValue(e.0) <= DigitsValue(es[0].0) {
      AscendingPrepend(e, es);
    } else {
      var rest := Insert(e, es[1..]);
      InsertAscending(e, es[1..]);
      AscendingPrepend(es[0], rest);
    }
  }

  /** Array-index properties in ascending numeric order. */
  function Sort<V>(es: seq<(string, V)>): (r: seq<(string, V)>)
    requires AllIndices(es)
    ensures multiset(r) == multiset(es)
    ensures Ascending(r)
  {
    if es == [] then []
    else
      assert es == [es[0]] + es[1..];
      InsertAscending(es[0], Sort(es[1..]));
      Insert(es[0], Sort(es[1..]))
  }

  /** The array-index properties, in creation order. */
  function Indices<V>(es: seq<(string, V)>): (r: seq<(string, V)>)
    ensures AllIndices(r)
  {
    if es == [] then []
    else (if IsArrayIndex(es[0].0) then [es[0]] else []) + Indices(es[1..])
  }

  /** The other properties, in creation order. */
  function Named<V>(es: seq<(string, V)>): (r: seq<(string, V)>)
    ensures NoIndices(r)
  {
    if es == [] then []
    else (if IsArrayIndex(es[0].0) then [] else [es[0]]) + Named(es[1..])
  }

  /** Every property is in exactly one of the two groups. */
  lemma {:induction false} SplitProperties<V>(es: seq<(string, V)>)
    ensures multiset(Indices(es)) + multiset(Named(es)) == multiset(es)
  {
    if es != [] {
      SplitProperties(es[1..]);
      assert es == [es[0]] + es[1..];
    }
  }

  lemma {:induction false} NamedAppend<V>(a: seq<(string, V)>, b: seq<(string, V)>)
    ensures Named(a + b) == Named(a) + Named(b)
  {
    if a != [] {
      var head := if IsArrayIndex(a[0].0) then [] else [a[0]];
      assert (a + b)[0] == a[0];
      assert (a + b)[1..] == a[1..] + b;
      NamedAppend(a[1..], b);
      calc {
        Named(a + b);
        head + Named(a[1..] + b);
        head + (Named(a[1..]) + Named(b));
        (head + Named(a[1..])) + Named(b);
      }
    } else {
      assert a + b == b;
    }
  }

  lemma {:induction false} NamedOfIndices<V>(es: seq<(string, V)>)
    requires AllIndices(es)
    ensures Named(es) == []
  {
    if es != [] {
      NamedOfIndices(es[1..]);
    }
  }

  lemma {:induction false} NamedOfNamed<V>(es: seq<(string, V)>)
    requires NoIndices(es)
    ensures Named(es) == es
    ensures Indices(es) == []
  {
    if es != [] {
      NamedOfNamed(es[1..]);
      assert es == [es[0]] + es[1..];
    }
  }

  /** Sorted array indices followed by other keys are in property order. */
  lemma IndicesThenNamed<V>(a: seq<(string, V)>, b: seq<(string, V)>)
    requires Ascending(a) && NoIndices(b)
    ensures forall i, j :: 0 <= i < j < |a + b| && IsArrayIndex((a + b)[j].0) ==>
      IsArrayIndex((a + b)[i].0) && DigitsValue((a + b)[i].0) <= DigitsValue((a + b)[j].0)
  {
    var r := a + b;
    assert forall j :: |a| <= j < |r| ==> r[j] == b[j - |a|];
    forall i, j | 0 <= i < j < |r| && IsArrayIndex(r[j].0)
      ensures IsArrayIndex(r[i].0) && DigitsValue(r[i].0) <= DigitsValue(r[j].0)
    {
      assert r[i] == a[i] && r[j] == a[j];
    }
  }

  /** The properties in the order `Object.keys` lists them: the same
      properties; an array index is preceded only by array indices no
      larger than it; the other keys keep their creation order. */
  function OwnOrder<V>(es: seq<(string, V)>): (r: seq<(string, V)>)
    ensures multiset(r) == multiset(es)
    ensures |r| == |es|
    ensures forall i, j :: 0 <= i < j < |r| && IsArrayIndex(r[j].0) ==>
      IsArrayIndex(r[i].0) && DigitsValue(r[i].0) <= DigitsValue(r[j].0)
    ensures Named(r) == Named(es)
  {
    var indices := Sort(Indices(es));
    var named := Named(es);
    SplitProperties(es);
    NamedAppend(indices, named);
    NamedOfIndices(indices);
    NamedOfNamed(named);
    IndicesThenNamed(indices, named);
    assert |multiset(indices + named)| == |indices + named| && |multiset(es)| == |es|;
    indices + named
  }

  /** Without array-index keys the order is the creation order. */
  lemma NoIndexKeepsOrder<V>(es: seq<(string, V)>)
    requires NoIndices(es)
    ensures OwnOrder(es) == es
  {
    NamedOfNamed(es);
  }

  /** With an array-index key among them, the first property listed has an
      array-index key. */
  lemma IndexComesFirst<V>(es: seq<(string, V)>, k: nat)
    requires k < |es| && IsArrayIndex(es[k].0)
    ensures |OwnOrder(es)| > 0 && IsArrayIndex(OwnOrder(es)[0].0)
  {
    var r := OwnOrder(es);
    assert es[k] in multiset(r);
    var j :| 0 <= j < |r| && r[j] == es[k];
  }
}
