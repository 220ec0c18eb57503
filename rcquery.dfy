/** The query-string builder of package `rcquery` (rcquery/query.go).
    `Query.Add(key, value)` appends `key=value` fragments to one string,
    the first after `?` and every later one after `&`; which fragments it
    appends depends on the kind of the value. */
module RcQuery {
  import opened GoText
  import opened UrlEscape

  /** A Go value as `reflect` sees it, closed over the kinds that `Add`
      tells apart. A float carries the text `fmt.Sprint` gives it, which
      this model does not compute; a pointer carries its target, `None`
      for a nil pointer; `Other` stands for maps, structs, functions,
      channels and every other kind. */
  datatype Value =
    | Bool(b: bool)
    | Int(i: int)
    | Uint(n: nat)
    | Float(text: Bytes)
    | Str(s: Bytes)
    | List(elems: seq<Value>)
    | Ptr(target: Option<Value>)
    | Nil
    | Other
  {
    predicate IsPrintable() {
      Bool? || Int? || Uint? || Float? || Str?
    }
  }

  /** One `key=text` fragment of a query string. */
  datatype Pair = Pair(key: Bytes, text: Bytes)

  /** `fmt.Sprint` of a scalar value. */
  function Sprint(v: Value): (r: Bytes)
    requires v.IsPrintable()
    ensures v.Bool? ==> r == (if v.b then "true" else "false")
    ensures v.Int? ==> r == Itoa(v.i)
    ensures v.Uint? ==> r == Decimal(v.n)
    ensures v.Float? ==> r == v.text
    ensures v.Str? ==> r == v.s
  {
    match v
    case Bool(b) => if b then "true" else "false"
    case Int(i) => Itoa(i)
    case Uint(n) => Decimal(n)
    case Float(text) => text
    case Str(s) => s
  }

  /** The text of an integer reads back as that integer. */
  lemma SprintParses(v: Value)
    requires v.Int? || v.Uint?
    ensures v.Int? ==> ParseInt(Sprint(v)) == Some(v.i)
    ensures v.Uint? ==> ParseDecimal(Sprint(v)) == Some(v.n)
  {
    match v
    case Int(i) => ItoaRoundTrip(i);
    case Uint(n) => DecimalRoundTrip(n);
  }

  /** The fragments that `Add(key, v)` emits, in order: one per scalar,
      those of each element of an array or slice, none for anything else.
      A pointer, nil or not, is one of the kinds `Add` does not handle, so
      it adds nothing (see `PairsDereferenced` for the reading the tests
      expect). */
  function Pairs(key: Bytes, v: Value): (r: seq<Pair>)
    ensures v.IsPrintable() && !v.Str? ==> r == [Pair(key, Sprint(v))]
    ensures v.Str? ==> r == [Pair(key, QueryEscape(v.s))]
    ensures v.Ptr? || v.Nil? || v.Other? ==> r == []
    decreases v
  {
    match v
    case Bool(_) => [Pair(key, Sprint(v))]
    case Int(_) => [Pair(key, Sprint(v))]
    case Uint(_) => [Pair(key, Sprint(v))]
    case Float(_) => [Pair(key, Sprint(v))]
    case Str(s) => [Pair(key, QueryEscape(Sprint(v)))]
    case List(elems) => PairsAll(key, elems)
    case _ => []
  }

  /** The fragments of the elements of an array or slice, element by element. */
  function PairsAll(key: Bytes, elems: seq<Value>): (r: seq<Pair>)
    ensures elems == [] ==> r == []
    ensures |elems| == 1 ==> r == Pairs(key, elems[0])
    decreases elems
  {
    if elems == [] then []
    else PairsAll(key, elems[..|elems| - 1]) + Pairs(key, elems[|elems| - 1])
  }

  /** The text of one fragment. */
  function Fragment(p: Pair): Bytes {
    p.key + "=" + p.text
  }

  /** Fragments joined by `&`. */
  function Joined(ps: seq<Pair>): Bytes
    decreases |ps|
  {
    if |ps| == 0 then []
    else if |ps| == 1 then Fragment(ps[0])
    else Fragment(ps[0]) + "&" + Joined(ps[1..])
  }

  /** A query string as a whole: empty when there are no fragments,
      otherwise `?` followed by the fragments joined by `&`. */
  function Encode(ps: seq<Pair>): (r: Bytes)
    ensures r == [] <==> ps == []
  {
    if ps == [] then [] else "?" + Joined(ps)
  }

  /** The separator `Add` writes before a fragment. */
  function Separator(query: Bytes): (r: Bytes)
    ensures |r| == 1
    ensures r == "?" <==> query == []
    ensures r == "&" <==> query != []
  {
    if |query| == 0 then "?" else "&"
  }

  class Query {
    var query: Bytes
    /** The fragments added so far, in order. */
    ghost var pairs: seq<Pair>

    ghost predicate Valid()
      reads this
    {
      query == Encode(pairs)
    }

    /** `New`: an empty query. */
    constructor ()
      ensures Valid() && pairs == [] && query == []
    {
      query := [];
      pairs := [];
    }

    /** `Add`: appends the fragments of `value` under `key`, the first
        after `?` and every later one after `&`. Pointers fall into the
        ignored kinds. */
    method Add(key: Bytes, value: Value)
      requires Valid()
      modifies this
      ensures Valid()
      ensures pairs == old(pairs) + Pairs(key, value)
      decreases value, 1
    {
      var separator := Separator(query);
      match value {
        case Bool(_) | Int(_) | Uint(_) | Float(_) =>
          AppendFragment(separator, Pair(key, Sprint(value)));
        case Str(_) =>
          AppendFragment(separator, Pair(key, QueryEscape(Sprint(value))));
        case List(elems) =>
          AddElements(key, elems);
        case _ =>
      }
    }

    /** The loop of `Add` over the elements of an array or slice: each
        element is added in turn under the same key. */
    method AddElements(key: Bytes, elems: seq<Value>)
      requires Valid()
      modifies this
      ensures Valid()
      ensures pairs == old(pairs) + PairsAll(key, elems)
      decreases elems, 0
    {
      ghost var start := pairs;
      var i := 0;
      while i < |elems|
        invariant 0 <= i <= |elems|
        invariant Valid()
        invariant pairs == start + PairsAll(key, elems[..i])
      {
        PairsAllStep(key, elems, i);
        Add(key, elems[i]);
        SeqAssoc3(start, PairsAll(key, elems[..i]), Pairs(key, elems[i]));
        i := i + 1;
      }
      assert elems[..|elems|] == elems;
    }

    /** The `+=` of one fragment after the separator chosen for it. */
    method AppendFragment(separator: Bytes, p: Pair)
      requires Valid() && separator == Separator(query)
      modifies this
      ensures Valid() && pairs == old(pairs) + [p]
    {
      EncodeSnoc(pairs, p);
      query := query + separator + p.key + "=" + p.text;
      pairs := pairs + [p];
    }

    /** `Get`: the query string built so far. */
    method Get() returns (s: Bytes)
      requires Valid()
      ensures s == Encode(pairs)
    {
      s := query;
    }
  }

  lemma {:induction false} JoinedSnoc(ps: seq<Pair>, p: Pair)
    requires ps != []
    ensures Joined(ps + [p]) == Joined(ps) + "&" + Fragment(p)
    decreases |ps|
  {
    if |ps| > 1 {
      assert (ps + [p])[1..] == ps[1..] + [p];
      JoinedSnoc(ps[1..], p);
    }
  }

  /** Appending one fragment to a query string: `?` before the first,
      `&` before every later one. */
  lemma EncodeSnoc(ps: seq<Pair>, p: Pair)
    ensures Encode(ps + [p]) == Encode(ps) + Separator(Encode(ps)) + Fragment(p)
  {
    if ps == [] {
      assert ps + [p] == [p];
    } else {
      JoinedSnoc(ps, p);
    }
  }

  /** `Add` only appends: the old query string is a prefix of the new one,
      and the first byte it appends is `?` exactly when the old string was
      empty, `&` otherwise. */
  lemma {:induction false} EncodeExtends(ps: seq<Pair>, qs: seq<Pair>)
    ensures |Encode(ps)| <= |Encode(ps + qs)|
    ensures Encode(ps + qs)[..|Encode(ps)|] == Encode(ps)
    ensures qs != [] ==>
      (|Encode(ps)| < |Encode(ps + qs)| &&
       Encode(ps + qs)[|Encode(ps)|] == (if ps == [] then '?' else '&'))
    decreases |qs|
  {
    if qs == [] {
      assert ps + qs == ps;
    } else {
      var init, last := qs[..|qs| - 1], qs[|qs| - 1];
      assert ps + qs == (ps + init) + [last];
      EncodeExtends(ps, init);
      EncodeSnoc(ps + init, last);
      var before, after := Encode(ps + init), Encode(ps + qs);
      assert after == before + Separator(before) + Fragment(last);
      assert after[..|before|] == before;
      if init == [] {
        assert ps + init == ps;
        assert after[|before|] == Separator(before)[0];
      } else {
        assert after[..|Encode(ps)|] == before[..|Encode(ps)|];
        assert after[|Encode(ps)|] == before[|Encode(ps)|];
      }
    }
  }

  /** A non-empty query string starts with `?`. */
  lemma EncodeStartsWithQuestionMark(ps: seq<Pair>)
    requires ps != []
    ensures |Encode(ps)| >= 1 && Encode(ps)[0] == '?'
  {
    EncodeExtends([], ps);
  }

  /** The elements of a concatenation emit the fragments of each part. */
  lemma {:induction false} PairsAllAppend(key: Bytes, a: seq<Value>, b: seq<Value>)
    ensures PairsAll(key, a + b) == PairsAll(key, a) + PairsAll(key, b)
    decreases |b|
  {
    if b == [] {
      assert a + b == a;
    } else {
      var init, last := b[..|b| - 1], b[|b| - 1];
      assert (a + b)[..|a + b| - 1] == a + init;
      assert (a + b)[|a + b| - 1] == last;
      assert PairsAll(key, a + b) == PairsAll(key, a + init) + Pairs(key, last);
      assert PairsAll(key, b) == PairsAll(key, init) + Pairs(key, last);
      PairsAllAppend(key, a, init);
      SeqAssoc3(PairsAll(key, a), PairsAll(key, init), Pairs(key, last));
    }
  }

  /** The fragments of the first `i + 1` elements: those of the first
      `i`, then those of element `i`. */
  lemma PairsAllStep(key: Bytes, elems: seq<Value>, i: nat)
    requires i < |elems|
    ensures PairsAll(key, elems[..i + 1]) == PairsAll(key, elems[..i]) + Pairs(key, elems[i])
  {
    assert elems[..i + 1][..i] == elems[..i];
  }

  /** Adding an array or slice is adding each element in turn under the
      same key. */
  lemma PairsOfList(key: Bytes, first: Value, rest: seq<Value>)
    ensures Pairs(key, List([first] + rest)) == Pairs(key, first) + Pairs(key, List(rest))
  {
    PairsAllAppend(key, [first], rest);
    assert PairsAll(key, [first]) == Pairs(key, first) by {
      assert [first][..0] == [];
    }
  }

  /** Each scalar element of an array or slice adds exactly one fragment. */
  lemma {:induction false} PairsAllScalars(key: Bytes, elems: seq<Value>)
    requires forall i | 0 <= i < |elems| :: elems[i].IsPrintable()
    ensures |PairsAll(key, elems)| == |elems|
    decreases elems
  {
    if elems != [] {
      PairsAllScalars(key, elems[..|elems| - 1]);
    }
  }

  /** Every fragment is emitted under the key it was added with. */
  lemma {:induction false} PairsUseKey(key: Bytes, v: Value)
    ensures forall i | 0 <= i < |Pairs(key, v)| :: Pairs(key, v)[i].key == key
    decreases v, 1
  {
    match v
    case List(elems) => PairsAllUseKey(key, elems);
    case _ =>
  }

  lemma {:induction false} PairsAllUseKey(key: Bytes, elems: seq<Value>)
    ensures forall i | 0 <= i < |PairsAll(key, elems)| :: PairsAll(key, elems)[i].key == key
    decreases elems, 0
  {
    if elems != [] {
      PairsAllUseKey(key, elems[..|elems| - 1]);
      PairsUseKey(key, elems[|elems| - 1]);
    }
  }

  /** A value emits something when it is a scalar, or an array or slice
      with an element that emits something. */
  predicate Emits(v: Value)
    decreases v
  {
    match v
    case List(elems) => exists i | 0 <= i < |elems| :: Emits(elems[i])
    case _ => v.IsPrintable()
  }

  /** `Add` changes the query string exactly when the value emits. */
  lemma {:induction false} PairsNonEmptyIffEmits(key: Bytes, v: Value)
    ensures Pairs(key, v) != [] <==> Emits(v)
    decreases v, 1
  {
    match v
    case List(elems) => PairsAllNonEmptyIff(key, elems);
    case _ =>
  }

  lemma {:induction false} PairsAllNonEmptyIff(key: Bytes, elems: seq<Value>)
    ensures PairsAll(key, elems) != [] <==> exists i | 0 <= i < |elems| :: Emits(elems[i])
    decreases elems, 0
  {
    if elems != [] {
      var init, last := elems[..|elems| - 1], elems[|elems| - 1];
      PairsAllNonEmptyIff(key, init);
      PairsNonEmptyIffEmits(key, last);
      if exists i | 0 <= i < |elems| :: Emits(elems[i]) {
        var i :| 0 <= i < |elems| && Emits(elems[i]);
        if i < |init| {
          assert Emits(init[i]);
        }
      }
      if PairsAll(key, init) != [] {
        var i :| 0 <= i < |init| && Emits(init[i]);
        assert Emits(elems[i]);
      }
    }
  }

  /** `nil`, nil pointers, maps and the other unsupported kinds add
      nothing, and neither does an empty array or slice. */
  lemma IgnoredKinds(key: Bytes)
    ensures Pairs(key, Nil) == [] && Pairs(key, Other) == [] && Pairs(key, Ptr(None)) == []
    ensures forall t :: Pairs(key, Ptr(Some(t))) == []
    ensures Pairs(key, List([])) == []
  {
  }

  /** A query string with one string parameter unescapes, as a whole, to
      the key and the original string, provided the key holds no `%` and
      no `+`. */
  lemma UnescapeStringParameter(key: Bytes, s: Bytes)
    requires IsPlain(key)
    ensures QueryUnescape(Encode(Pairs(key, Str(s)))) == Some("?" + key + "=" + s)
  {
    var prefix := "?" + key + "=";
    assert Encode(Pairs(key, Str(s))) == prefix + QueryEscape(s);
    assert IsPlain(prefix);
    UnescapePlainPrefix(prefix, QueryEscape(s));
    EscapeRoundTrip(s);
  }

  // Reading a query string back into its fragments.

  /** Splits at every `&`. */
  function SplitAmp(s: Bytes): (r: seq<Bytes>)
    ensures |r| >= 1
    decreases |s|
  {
    if s == [] then [[]]
    else if s[0] == '&' then [[]] + SplitAmp(s[1..])
    else var t := SplitAmp(s[1..]); [[s[0]] + t[0]] + t[1..]
  }

  /** Splits a fragment at its first `=`. */
  function CutPair(s: Bytes): Option<Pair>
    decreases |s|
  {
    if s == [] then None
    else if s[0] == '=' then Some(Pair([], s[1..]))
    else match CutPair(s[1..])
      case None => None
      case Some(p) => Some(Pair([s[0]] + p.key, p.text))
  }

  function CutPairs(segs: seq<Bytes>): Option<seq<Pair>>
    decreases |segs|
  {
    if segs == [] then Some([])
    else match (CutPair(segs[0]), CutPairs(segs[1..]))
      case (Some(p), Some(ps)) => Some([p] + ps)
      case _ => None
  }

  /** Reads a query string back into its fragments. */
  function Decode(q: Bytes): Option<seq<Pair>> {
    if q == [] then Some([])
    else if q[0] != '?' then None
    else CutPairs(SplitAmp(q[1..]))
  }

  /** Fragments that can be read back: no `&` or `=` in a key, no `&` in a
      value text. `Add` inserts the key verbatim, so this is a demand on
      the caller's keys. */
  predicate Separable(ps: seq<Pair>) {
    forall i | 0 <= i < |ps| :: '&' !in ps[i].key && '=' !in ps[i].key && '&' !in ps[i].text
  }

  lemma {:induction false} SplitAmpFree(a: Bytes, rest: Bytes)
    requires '&' !in a
    ensures SplitAmp(a) == [a]
    ensures SplitAmp(a + "&" + rest) == [a] + SplitAmp(rest)
    decreases |a|
  {
    if a == [] {
      assert a + "&" + rest == "&" + rest;
      assert ("&" + rest)[1..] == rest;
    } else {
      assert (a + "&" + rest)[1..] == a[1..] + "&" + rest;
      SplitAmpFree(a[1..], rest);
      assert [a[0]] + a[1..] == a;
    }
  }

  lemma {:induction false} CutPairFragment(p: Pair)
    requires '=' !in p.key
    ensures CutPair(Fragment(p)) == Some(p)
    decreases |p.key|
  {
    if p.key == [] {
      assert Fragment(p) == "=" + p.text;
      assert Fragment(p)[1..] == p.text;
    } else {
      var tail := Pair(p.key[1..], p.text);
      assert Fragment(p)[1..] == Fragment(tail);
      CutPairFragment(tail);
      assert [p.key[0]] + p.key[1..] == p.key;
    }
  }

  /** A fragment whose key and text hold no `&` holds none. */
  lemma FragmentHasNoAmp(p: Pair)
    requires '&' !in p.key && '&' !in p.text
    ensures '&' !in Fragment(p)
  {
    var f := Fragment(p);
    forall i | 0 <= i < |f| ensures f[i] != '&' {
      if i < |p.key| {
        assert f[i] == p.key[i];
      } else if i > |p.key| {
        assert f[i] == p.text[i - |p.key| - 1];
      }
    }
  }

  lemma CutPairsOne(seg: Bytes, p: Pair)
    requires CutPair(seg) == Some(p)
    ensures CutPairs([seg]) == Some([p])
  {
    assert [seg][1..] == [];
    assert CutPairs([]) == Some([]);
    assert [p] + [] == [p];
  }

  lemma {:induction false} DecodeJoined(ps: seq<Pair>)
    requires ps != [] && Separable(ps)
    ensures CutPairs(SplitAmp(Joined(ps))) == Some(ps)
    decreases |ps|
  {
    var f := Fragment(ps[0]);
    FragmentHasNoAmp(ps[0]);
    CutPairFragment(ps[0]);
    if |ps| == 1 {
      SplitAmpFree(f, []);
      assert Joined(ps) == f;
      CutPairsOne(f, ps[0]);
      assert [ps[0]] == ps;
    } else {
      SplitAmpFree(f, Joined(ps[1..]));
      DecodeJoined(ps[1..]);
      var segs := SplitAmp(Joined(ps));
      assert segs == [f] + SplitAmp(Joined(ps[1..]));
      assert segs[1..] == SplitAmp(Joined(ps[1..]));
      assert [ps[0]] + ps[1..] == ps;
    }
  }

  /** Decoding undoes encoding for every sequence of separable fragments. */
  lemma EncodeRoundTrip(ps: seq<Pair>)
    requires Separable(ps)
    ensures Decode(Encode(ps)) == Some(ps)
  {
    if ps != [] {
      assert Encode(ps)[1..] == Joined(ps);
      DecodeJoined(ps);
    }
  }

  // What rcquery/query_test.go expects of the encoder.

  /** A fresh query renders as the empty string. */
  lemma EmptyQueryExample()
    ensures Encode([]) == ""
  {
  }

  /** `$ü!` (bytes 24 C3 BC 21) under key `Blob` is percent-encoded. */
  lemma EscapeQueryExample()
    ensures Encode(Pairs("Blob", Str("$\U{C3}\U{BC}!"))) == "?" + "Blob" + "=" + "%24%C3%BC%21"
  {
    EscapeExample();
    SingleStringQuery("Blob", "$\U{C3}\U{BC}!");
  }

  lemma SingleStringQuery(key: Bytes, s: Bytes)
    ensures Encode(Pairs(key, Str(s))) == "?" + key + "=" + QueryEscape(s)
  {
  }

  /** Unescaping that query string gives back the value as it was. */
  lemma UnescapeQueryExample()
    ensures QueryUnescape(Encode(Pairs("Blob", Str("$\U{C3}\U{BC}!")))) == Some("?" + "Blob" + "=" + "$\U{C3}\U{BC}!")
  {
    UnescapeStringParameter("Blob", "$\U{C3}\U{BC}!");
  }

  /** The parameters of `TestAllQueryTypes`: the string, the unsigned
      integer, the bool and the float add one fragment each, the slice one
      per element, and the map none. */
  lemma AllQueryTypesExample()
    ensures Pairs("Blob", Str("Crop")) + Pairs("Limit", Uint(23)) + Pairs("Flag", Bool(true))
      + Pairs("kilo", Float("-12.123456789")) + Pairs("pList", List([Int(1), Int(2), Int(3)]))
      + Pairs("crap", Other)
      == [Pair("Blob", "Crop")] + [Pair("Limit", "23")] + [Pair("Flag", "true")]
        + [Pair("kilo", "-12.123456789")] + [Pair("pList", "1"), Pair("pList", "2"), Pair("pList", "3")] + []
  {
    StringPair();
    UintPair();
    BoolAndFloatPairs();
    ListQueryPairs();
  }

  lemma BoolAndFloatPairs()
    ensures Pairs("Flag", Bool(true)) == [Pair("Flag", "true")]
    ensures Pairs("kilo", Float("-12.123456789")) == [Pair("kilo", "-12.123456789")]
  {
  }

  /** The query string `TestAllQueryTypes` expects of those fragments. */
  lemma AllQueryTypesQueryString()
    ensures Encode([Pair("Blob", "Crop"), Pair("Limit", "23"), Pair("Flag", "true"),
        Pair("kilo", "-12.123456789"), Pair("pList", "1"), Pair("pList", "2"), Pair("pList", "3")])
      == "?" + "Blob=Crop" + "&" + "Limit=23" + "&" + "Flag=true" + "&" + "kilo=-12.123456789"
        + "&" + "pList=1" + "&" + "pList=2" + "&" + "pList=3"
  {
    EncodeSeven(Pair("Blob", "Crop"), Pair("Limit", "23"), Pair("Flag", "true"),
      Pair("kilo", "-12.123456789"), Pair("pList", "1"), Pair("pList", "2"), Pair("pList", "3"));
    AllQueryTypesFragments();
    ListFragments();
  }

  lemma AllQueryTypesFragments()
    ensures Fragment(Pair("Blob", "Crop")) == "Blob=Crop"
    ensures Fragment(Pair("Limit", "23")) == "Limit=23"
    ensures Fragment(Pair("Flag", "true")) == "Flag=true"
    ensures Fragment(Pair("kilo", "-12.123456789")) == "kilo=-12.123456789"
  {
  }

  lemma ListFragments()
    ensures Fragment(Pair("pList", "1")) == "pList=1"
    ensures Fragment(Pair("pList", "2")) == "pList=2"
    ensures Fragment(Pair("pList", "3")) == "pList=3"
  {
  }

  lemma EncodeSeven(p1: Pair, p2: Pair, p3: Pair, p4: Pair, p5: Pair, p6: Pair, p7: Pair)
    ensures Encode([p1, p2, p3, p4, p5, p6, p7])
      == "?" + Fragment(p1) + "&" + Fragment(p2) + "&" + Fragment(p3) + "&" + Fragment(p4)
        + "&" + Fragment(p5) + "&" + Fragment(p6) + "&" + Fragment(p7)
  {
    var q1 := [p1];
    var q2 := q1 + [p2];
    var q3 := q2 + [p3];
    var q4 := q3 + [p4];
    var q5 := q4 + [p5];
    var q6 := q5 + [p6];
    var q7 := q6 + [p7];
    EncodeOne(p1);
    EncodeAppend(q1, p2);
    EncodeAppend(q2, p3);
    EncodeAppend(q3, p4);
    EncodeAppend(q4, p5);
    EncodeAppend(q5, p6);
    EncodeAppend(q6, p7);
    assert q2 == [p1, p2];
    assert q3 == [p1, p2, p3];
    assert q4 == [p1, p2, p3, p4];
    assert q5 == [p1, p2, p3, p4, p5];
    assert q6 == [p1, p2, p3, p4, p5, p6];
    assert q7 == [p1, p2, p3, p4, p5, p6, p7];
  }

  /** A fragment after at least one other is joined with `&`. */
  lemma EncodeAppend(ps: seq<Pair>, p: Pair)
    requires ps != []
    ensures Encode(ps + [p]) == Encode(ps) + "&" + Fragment(p)
  {
    JoinedSnoc(ps, p);
  }

  lemma StringPair()
    ensures Pairs("Blob", Str("Crop")) == [Pair("Blob", "Crop")]
  {
    assert AllUnreserved("Crop");
  }

  lemma UintPair()
    ensures Pairs("Limit", Uint(23)) == [Pair("Limit", "23")]
  {
    assert Decimal(23) == "23";
  }

  lemma ListQueryPairs()
    ensures Pairs("pList", List([Int(1), Int(2), Int(3)]))
      == [Pair("pList", "1"), Pair("pList", "2"), Pair("pList", "3")]
  {
    PairsOfList("pList", Int(1), [Int(2), Int(3)]);
    PairsOfList("pList", Int(2), [Int(3)]);
    PairsOfList("pList", Int(3), []);
    assert [Int(1)] + [Int(2), Int(3)] == [Int(1), Int(2), Int(3)];
    assert [Int(2)] + [Int(3)] == [Int(2), Int(3)];
    assert [Int(3)] + [] == [Int(3)];
  }

  lemma ListQueryExample()
    ensures Encode(Pairs("pList", List([Int(1), Int(2), Int(3)])))
      == "?" + "pList=1" + "&" + "pList=2" + "&" + "pList=3"
  {
    ListQueryPairs();
    EncodeThree(Pair("pList", "1"), Pair("pList", "2"), Pair("pList", "3"));
    ListFragments();
  }

  lemma EncodeThree(p: Pair, q: Pair, r: Pair)
    ensures Encode([p, q, r]) == "?" + Fragment(p) + "&" + Fragment(q) + "&" + Fragment(r)
  {
    JoinedCons(q, [r]);
    assert [q] + [r] == [q, r];
    JoinedCons(p, [q, r]);
    assert [p] + [q, r] == [p, q, r];
    SeqAssoc5("?", Fragment(p), "&", Fragment(q), "&" + Fragment(r));
  }

  lemma JoinedCons(p: Pair, ps: seq<Pair>)
    requires ps != []
    ensures Joined([p] + ps) == Fragment(p) + "&" + Joined(ps)
  {
    assert ([p] + ps)[1..] == ps;
  }

  /** Regrouping a concatenation of five byte strings. */
  lemma SeqAssoc5(a: Bytes, b: Bytes, c: Bytes, d: Bytes, e: Bytes)
    ensures a + (b + c + (d + e)) == a + b + c + d + e
  {
  }

  // Pointers. As written, `Add` has no case for `reflect.Ptr`, so a
  // pointer, nil or not, falls into the ignored default, which is what
  // `Pairs` and `Query.Add` do; rcquery/query_test.go and
  // restclient_test.go expect a non-nil pointer to be followed to its
  // target, which is what `PairsDereferenced` does.

  /** A value with a pointer somewhere inside it. */
  predicate HasPointer(v: Value)
    decreases v
  {
    match v
    case Ptr(_) => true
    case List(elems) => exists i | 0 <= i < |elems| :: HasPointer(elems[i])
    case _ => false
  }

  /** The fragments the tests expect of `Add(key, v)`: as `Pairs`, except
      that a non-nil pointer adds what its target adds. */
  function PairsDereferenced(key: Bytes, v: Value): (r: seq<Pair>)
    ensures v.IsPrintable() || v.Nil? || v.Other? ==> r == Pairs(key, v)
    ensures v == Ptr(None) ==> r == []
    ensures v.List? && v.elems == [] ==> r == []
    decreases v
  {
    match v
    case Ptr(Some(target)) => PairsDereferenced(key, target)
    case List(elems) => PairsAllDereferenced(key, elems)
    case _ => Pairs(key, v)
  }

  function PairsAllDereferenced(key: Bytes, elems: seq<Value>): seq<Pair>
    decreases elems
  {
    if elems == [] then []
    else PairsAllDereferenced(key, elems[..|elems| - 1]) + PairsDereferenced(key, elems[|elems| - 1])
  }

  /** On values without pointers the code as written and the corrected
      reading agree. */
  lemma {:induction false} AsWrittenAgreesWithoutPointers(key: Bytes, v: Value)
    requires !HasPointer(v)
    ensures Pairs(key, v) == PairsDereferenced(key, v)
    decreases v, 1
  {
    if v.List? {
      AsWrittenAllAgreesWithoutPointers(key, v.elems);
    }
  }

  lemma {:induction false} AsWrittenAllAgreesWithoutPointers(key: Bytes, elems: seq<Value>)
    requires forall i | 0 <= i < |elems| :: !HasPointer(elems[i])
    ensures PairsAll(key, elems) == PairsAllDereferenced(key, elems)
    decreases elems, 0
  {
    if elems != [] {
      AsWrittenAllAgreesWithoutPointers(key, elems[..|elems| - 1]);
      AsWrittenAgreesWithoutPointers(key, elems[|elems| - 1]);
    }
  }

  /** A non-nil pointer adds what its target adds, and a nil pointer
      nothing; as written, both add nothing. */
  lemma PointerDereferenced(key: Bytes, target: Value)
    ensures PairsDereferenced(key, Ptr(Some(target))) == PairsDereferenced(key, target)
    ensures PairsDereferenced(key, Ptr(None)) == []
    ensures Pairs(key, Ptr(Some(target))) == [] && Pairs(key, Ptr(None)) == []
  {
  }

  /** The sequence of rcquery/query_test.go `TestNilTypes`: a pointer to
      the string "nil", a plain nil, a pointer to 0 and a nil pointer. As
      written, `Add` drops every one of them, and the query stays empty
      where the test expects `?Query=nil&FlagI=0`. */
  lemma NilTypesAsWritten()
    ensures Pairs("Query", Ptr(Some(Str("nil")))) + Pairs("PlainNil", Nil)
      + Pairs("FlagI", Ptr(Some(Int(0)))) + Pairs("FlagJ", Ptr(None)) == []
  {
  }

  /** The same sequence under the corrected reading. */
  lemma NilTypesDereferenced()
    ensures PairsDereferenced("Query", Ptr(Some(Str("nil")))) + PairsDereferenced("PlainNil", Nil)
      + PairsDereferenced("FlagI", Ptr(Some(Int(0)))) + PairsDereferenced("FlagJ", Ptr(None))
      == [Pair("Query", "nil"), Pair("FlagI", "0")]
  {
    NilTypesTargets();
  }

  lemma NilTypesTargets()
    ensures PairsDereferenced("Query", Ptr(Some(Str("nil")))) == [Pair("Query", "nil")]
    ensures PairsDereferenced("FlagI", Ptr(Some(Int(0)))) == [Pair("FlagI", "0")]
  {
    PointerDereferenced("Query", Str("nil"));
    PointerDereferenced("FlagI", Int(0));
    assert AllUnreserved("nil");
    assert Itoa(0) == "0";
  }

  /** The query string the tests expect of that sequence. */
  lemma NilTypesQueryString()
    ensures Encode([Pair("Query", "nil"), Pair("FlagI", "0")]) == "?" + "Query=nil" + "&" + "FlagI=0"
  {
    EncodeTwo(Pair("Query", "nil"), Pair("FlagI", "0"));
    assert Fragment(Pair("Query", "nil")) == "Query=nil";
    assert Fragment(Pair("FlagI", "0")) == "FlagI=0";
  }

  lemma EncodeOne(p: Pair)
    ensures Encode([p]) == "?" + Fragment(p)
  {
  }

  lemma EncodeTwo(p: Pair, q: Pair)
    ensures Encode([p, q]) == "?" + Fragment(p) + "&" + Fragment(q)
  {
    JoinedCons(p, [q]);
    assert [p] + [q] == [p, q];
  }
}
